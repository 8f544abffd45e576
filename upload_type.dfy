/** Where a finished build is uploaded. */
module UploadType {

  /** Go's `type UploadType uint8`; the zero value means no upload. */
  newtype UploadType = x: int | 0 <= x < 256

  const NoUploadType: UploadType := 0
  const DataManagerUploadType: UploadType := 1

  const Invalid: string := "<invalid>"

  predicate Declared(ut: UploadType) {
    ut == NoUploadType || ut == DataManagerUploadType
  }

  /** UploadType.String. */
  function String(ut: UploadType): (s: string)
    ensures ut == NoUploadType ==> s == "no upload"
    ensures ut == DataManagerUploadType ==> s == "DataManager"
    ensures s == Invalid <==> !Declared(ut)
  {
    match ut
    case 0 => "no upload"
    case 1 => "DataManager"
    case _ => Invalid
  }

  /** The two declared names differ from each other and from the marker. */
  lemma NamesDistinct()
    ensures String(NoUploadType) != String(DataManagerUploadType)
    ensures String(NoUploadType) != Invalid && String(DataManagerUploadType) != Invalid
  {
  }
}
