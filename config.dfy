/** The command-line client's configuration: which session token to use,
    whether a user counts as logged in, and the machine ID sent at login.
    The OS keyring is consulted through its outcome, passed in. */
module Config {
  import opened Common
  import opened JobType
  import opened Errors
  import opened Requests

  const DefaultKeyring: string := "login"

  /** The prefix of the message the Secret Service keyring gives when it
      cannot unlock its collection. */
  const UnlockFailurePrefix: string := "failed to unlock correct collection"

  /** The longest machine ID, in bytes, that is sent. */
  const MaxMachineIDLen: nat := 100

  /** The length, in bytes, of a valid session token. */
  const TokenLen: nat := 64

  datatype UserConfig = UserConfig(
    username: string,
    sessionToken: string,
    disableKeyring: bool,
    keyring: string,
    forceVerify: bool)

  datatype ServerConfig = ServerConfig(url: string, ignoreCert: bool)

  datatype Config = Config(
    file: string,
    machineID: string,
    user: UserConfig,
    server: ServerConfig,
    namespaces: map<string, string>)

  /** The user section of a freshly created configuration. */
  const DefaultUser: UserConfig := UserConfig("", "", false, DefaultKeyring, false)

  /** getDefaultConfig, with the machine ID it generates passed in: the
      local server over plain HTTP with certificates checked, the default
      user section, and AUR builds uploaded to the "AURbuild" namespace. */
  function DefaultConfig(machineID: string): (c: Config)
    ensures c.machineID == machineID && c.user == DefaultUser
    ensures c.server == ServerConfig("http://localhost:9999", false)
    ensures c.namespaces == map["buildAUR" := "AURbuild"]
  {
    Config("", machineID, DefaultUser, ServerConfig("http://localhost:9999", false),
           map[String(JobAUR) := "AURbuild"])
  }

  /** IsTokenValid: a session token is exactly 64 bytes long, so it has
      between 16 and 64 characters whatever they are. */
  predicate IsTokenValid(token: string)
    ensures IsTokenValid(token) ==> TokenLen / 4 <= |token| <= TokenLen
    ensures token == "" ==> !IsTokenValid(token)
  {
    Utf8Len(token) == TokenLen
  }

  /** Tokens as the server issues them are ASCII, and for those the test is
      a count of characters. */
  lemma TokenValidAscii(token: string)
    requires IsAscii(token)
    ensures IsTokenValid(token) <==> |token| == TokenLen
  {
    Utf8LenAscii(token);
  }

  /** GetKeyring: the configured keyring, or "login" when none is set. */
  function GetKeyring(c: Config): (k: string)
    ensures k != ""
    ensures c.user.keyring != "" ==> k == c.user.keyring
    ensures c.user.keyring == "" ==> k == DefaultKeyring
  {
    if Utf8Len(c.user.keyring) == 0 then DefaultKeyring else c.user.keyring
  }

  /** IsUnlockError: the config package's own sentinel, or any error whose
      message starts with the keyring's unlock failure text. */
  predicate IsUnlockError(err: Option<Error>)
    ensures err.None? ==> !IsUnlockError(err)
    ensures err == Some(ErrUnlockingKeyring) ==> IsUnlockError(err)
    ensures err == Some(ErrNotFound) ==> !IsUnlockError(err)
    ensures err.Some? && UnlockFailurePrefix <= Message(err.value) ==> IsUnlockError(err)
  {
    err.Some? && (UnlockFailurePrefix <= Message(err.value) || err.value == ErrUnlockingKeyring)
  }

  /** The sentinel is recognised by identity, not by its text; a missing
      keyring entry is not an unlock failure; nil is not either. */
  lemma UnlockErrorCases(rest: string)
    ensures !IsUnlockError(None)
    ensures IsUnlockError(Some(ErrUnlockingKeyring))
    ensures !IsUnlockError(Some(Other(Message(ErrUnlockingKeyring))))
    ensures !IsUnlockError(Some(ErrNotFound))
    ensures IsUnlockError(Some(Other(UnlockFailurePrefix + rest)))
  {
  }

  /** GetToken, given what the keyring lookup for the user returned (it is
      not consulted when the keyring is disabled). */
  function GetToken(c: Config, lookup: Result<string, Error>): (r: (string, Option<Error>))
    ensures c.user.disableKeyring ==> r == (c.user.sessionToken, None)
    ensures !c.user.disableKeyring && lookup.Success? ==> r == (lookup.value, None)
    ensures !c.user.disableKeyring && lookup.Failure? ==>
              if IsUnlockError(Some(lookup.error)) && c.user.sessionToken == "" then
                r == ("", Some(ErrUnlockingKeyring))
              else if lookup.error == ErrNotFound then
                r == ("", Some(ErrNotFound))
              else
                r == (c.user.sessionToken, None)
    ensures r.1.Some? ==> r.0 == "" && (r.1 == Some(ErrUnlockingKeyring) || r.1 == Some(ErrNotFound))
  {
    var err: Option<Error> := if !c.user.disableKeyring && lookup.Failure? then Some(lookup.error) else None;
    if c.user.disableKeyring || err.Some? then
      if IsUnlockError(err) && Utf8Len(c.user.sessionToken) == 0 then ("", Some(ErrUnlockingKeyring))
      else if err == Some(ErrNotFound) then ("", err)
      else (c.user.sessionToken, None)
    else
      (lookup.value, None)
  }

  /** IsLoggedIn: a user is named and the token in use, from the keyring
      or else from the configuration, is valid. */
  predicate IsLoggedIn(c: Config, lookup: Result<string, Error>)
    ensures c.user.username == "" ==> !IsLoggedIn(c, lookup)
    ensures c.user.disableKeyring ==> (IsLoggedIn(c, lookup) <==> c.user.username != "" && IsTokenValid(c.user.sessionToken))
    ensures IsLoggedIn(c, lookup) ==>
              IsTokenValid(c.user.sessionToken) || (!c.user.disableKeyring && lookup.Success? && IsTokenValid(lookup.value))
  {
    if Utf8Len(c.user.username) == 0 then false
    else
      var token := if c.user.disableKeyring || lookup.Failure? then c.user.sessionToken else lookup.value;
      IsTokenValid(token)
  }

  /** Where GetToken hands out a token, being logged in means that this
      token is valid. */
  lemma LoggedInIsValidToken(c: Config, lookup: Result<string, Error>)
    requires c.user.username != "" && GetToken(c, lookup).1.None?
    ensures IsLoggedIn(c, lookup) <==> IsTokenValid(GetToken(c, lookup).0)
  {
  }

  /** The two disagree on a keyring without an entry for the user: the
      stored token still counts for IsLoggedIn, but GetToken reports the
      missing entry. */
  lemma LoggedInWithoutKeyringEntry(c: Config)
    requires c.user.username != "" && !c.user.disableKeyring && IsTokenValid(c.user.sessionToken)
    ensures IsLoggedIn(c, Failure(ErrNotFound))
    ensures GetToken(c, Failure(ErrNotFound)) == ("", Some(ErrNotFound))
  {
  }

  /** GetMachineID, with the ID generation passed in: an empty stored ID is
      replaced by the generated one (the new configuration), and an ID
      longer than 100 bytes is not sent at all. */
  function GetMachineID(c: Config, generated: string): (r: (Config, string))
    ensures r.0 == (if c.machineID == "" then c.(machineID := generated) else c)
    ensures Utf8Len(r.1) <= MaxMachineIDLen
    ensures r.1 == "" || r.1 == r.0.machineID
    ensures Utf8Len(r.0.machineID) <= MaxMachineIDLen ==> r.1 == r.0.machineID
  {
    var c' := if Utf8Len(c.machineID) == 0 then c.(machineID := generated) else c;
    if Utf8Len(c'.machineID) > MaxMachineIDLen then (c', "") else (c', c'.machineID)
  }

  /** A stored ASCII ID is sent exactly when it has at most 100 characters. */
  lemma MachineIDAscii(c: Config, generated: string)
    requires c.machineID != "" && IsAscii(c.machineID)
    ensures GetMachineID(c, generated).1 == c.machineID <==> |c.machineID| <= MaxMachineIDLen
  {
    Utf8LenAscii(c.machineID);
  }

  /** GetNamspace: the data manager namespace configured for a job type,
      "" when there is none. */
  function GetNamespace(c: Config, jt: JobType): (ns: string)
    ensures String(jt) in c.namespaces ==> ns == c.namespaces[String(jt)]
    ensures String(jt) !in c.namespaces ==> ns == ""
  {
    if String(jt) in c.namespaces then c.namespaces[String(jt)] else ""
  }

  /** IsDefault: the user section and the certificate setting are those of
      a fresh configuration. */
  predicate IsDefault(c: Config)
    ensures IsDefault(c) ==> c.user.username == "" && c.user.sessionToken == "" && !c.user.disableKeyring
    ensures IsDefault(c) ==> GetKeyring(c) == DefaultKeyring && !c.server.ignoreCert
  {
    c.user == DefaultConfig(c.machineID).user && c.server.ignoreCert == DefaultConfig(c.machineID).server.ignoreCert
  }

  /** A fresh configuration is default, uploads AUR builds to the
      "AURbuild" namespace, and a default configuration uses the "login"
      keyring and is never logged in. */
  lemma DefaultConfigFacts(machineID: string, c: Config, lookup: Result<string, Error>)
    ensures IsDefault(DefaultConfig(machineID))
    ensures GetNamespace(DefaultConfig(machineID), JobAUR) == "AURbuild"
    ensures IsDefault(c) ==> GetKeyring(c) == DefaultKeyring && !IsLoggedIn(c, lookup)
  {
  }

  /** ToRequestConfig: the request configuration built from the token and
      machine ID the configuration yields, and GetToken's error. */
  function ToRequestConfig(c: Config, lookup: Result<string, Error>, generated: string): (r: (RequestConfig, Option<Error>))
    ensures r.0.sessionToken == GetToken(c, lookup).0 && r.1 == GetToken(c, lookup).1
    ensures r.0.machineID == GetMachineID(c, generated).1 && Utf8Len(r.0.machineID) <= MaxMachineIDLen
    ensures r.0.url == c.server.url && r.0.ignoreCert == c.server.ignoreCert && r.0.username == c.user.username
    ensures r.1.Some? ==> r.0.sessionToken == ""
  {
    var (token, err) := GetToken(c, lookup);
    (RequestConfig(c.server.ignoreCert, c.server.url, GetMachineID(c, generated).1, c.user.username, token), err)
  }
}
