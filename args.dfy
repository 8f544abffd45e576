/** Keys of a job's flat argument map. */
module Args {

  // Data manager upload keys
  const DMToken: string := "DM_Token"
  const DMUser: string := "DM_USER"
  const DMHost: string := "DM_HOST"
  const DMNamespace: string := "DM_NAMESPACE"

  // AUR job keys
  const AURPackage: string := "REPO"

  /** Every declared key. */
  const Keys: set<string> := {DMToken, DMUser, DMHost, DMNamespace, AURPackage}

  /** The five keys are pairwise distinct, so writing one never overwrites another. */
  lemma KeysDistinct()
    ensures |Keys| == 5
  {
  }
}
