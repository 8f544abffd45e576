/** The kinds of build job and their wire names. */
module JobType {

  /** Go's `type JobType uint8`: any byte value is a JobType, only two are declared. */
  newtype JobType = x: int | 0 <= x < 256

  const JobNoBuild: JobType := 0
  const JobAUR: JobType := 1

  predicate Declared(jt: JobType) {
    jt == JobNoBuild || jt == JobAUR
  }

  /** JobType.String: the wire name, or "" for an undeclared value. */
  function String(jt: JobType): (s: string)
    ensures jt == JobNoBuild ==> s == "NoJob"
    ensures jt == JobAUR ==> s == "buildAUR"
    ensures s == "" <==> !Declared(jt)
  {
    match jt
    case 0 => "NoJob"
    case 1 => "buildAUR"
    case _ => ""
  }

  /** ParseJobType: total; every unknown name falls back to JobNoBuild. */
  function ParseJobType(inp: string): (jt: JobType)
    ensures Declared(jt)
    ensures jt == JobAUR <==> inp == "buildAUR"
  {
    if inp == "NoJob" then JobNoBuild
    else if inp == "buildAUR" then JobAUR
    else JobNoBuild
  }

  /** Parsing a declared type's name gives the type back. */
  lemma ParseString(jt: JobType)
    requires Declared(jt)
    ensures ParseJobType(String(jt)) == jt
  {
  }

  /** Printing a parsed name gives back the input exactly when the input
      is one of the two names. */
  lemma StringParse(inp: string)
    ensures String(ParseJobType(inp)) == inp <==> inp == "NoJob" || inp == "buildAUR"
  {
  }
}
