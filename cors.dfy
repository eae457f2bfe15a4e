/** The application's CORS policy: the allowed-origin setting read from CORS_ORIGIN and
    NODE_ENV, and the decision taken for each request's Origin header. */
module Cors {
  import opened Wrappers
  import opened JsText
  import opened Http

  /** What `getCorsOrigin` returns: the string '*' or the list of configured origins. */
  datatype CorsSetting = Wildcard | Origins(list: seq<string>)

  /** `getCorsOrigin`, for the values of CORS_ORIGIN and NODE_ENV (None when unset). When
      CORS_ORIGIN is set and non-empty, its comma-separated entries, each trimmed; otherwise
      '*', in development and in every other environment alike. */
  function CorsOrigin(corsEnv: Option<string>, nodeEnv: Option<string>): CorsSetting {
    var env := if Given(nodeEnv) then nodeEnv.value else "development";
    if Given(corsEnv) then
      var parts := Split(corsEnv.value, ',');
      Origins(seq(|parts|, i requires 0 <= i < |parts| => Trim(parts[i])))
    else if env == "development" then Wildcard
    else Wildcard
  }

  /** `allowedOrigins.includes(x)`: on the string '*' this is a substring test, on a list an exact
      membership test. */
  predicate Includes(setting: CorsSetting, x: string) {
    match setting
    case Wildcard => x == "" || x == "*"
    case Origins(list) => x in list
  }

  datatype CorsDecision = Allow | Deny(message: string)

  const DenyPrefix: string := "The CORS policy for this site does not allow access from the origin: "

  /** The `origin` callback: no (or an empty) Origin header is allowed, then a '*' entry allows
      everything, then an exact entry allows that origin; anything else is refused with a
      message naming the origin. */
  function Decide(setting: CorsSetting, origin: Option<string>): CorsDecision {
    if !Given(origin) then Allow
    else if Includes(setting, "*") then Allow
    else if Includes(setting, origin.value) then Allow
    else Deny(DenyPrefix + origin.value)
  }

  /** Without CORS_ORIGIN the setting is '*' for every NODE_ENV, and every origin is allowed. */
  lemma UnsetAllowsAll(corsEnv: Option<string>, nodeEnv: Option<string>, origin: Option<string>)
    requires !Given(corsEnv)
    ensures CorsOrigin(corsEnv, nodeEnv) == Wildcard
    ensures Decide(CorsOrigin(corsEnv, nodeEnv), origin) == Allow
  {
  }

  /** A request without an Origin header is always allowed. */
  lemma NoOriginAllowed(setting: CorsSetting, origin: Option<string>)
    requires !Given(origin)
    ensures Decide(setting, origin) == Allow
  {
  }

  /** With an explicit list, a given origin is allowed exactly when the list has '*' or the
      origin itself, compared as it arrives; a refusal names the origin. */
  lemma ListDecision(list: seq<string>, origin: string)
    requires origin != ""
    ensures Decide(Origins(list), Some(origin)) == Allow <==> "*" in list || origin in list
    ensures Decide(Origins(list), Some(origin)).Deny? ==>
      Decide(Origins(list), Some(origin)).message == DenyPrefix + origin
  {
  }

  /** The configured entries are the comma-separated pieces of CORS_ORIGIN, one more than there
      are commas; each is its piece with the surrounding whitespace removed, so it neither
      starts nor ends with whitespace and holds no comma; and the pieces joined with ',' give
      CORS_ORIGIN back. */
  lemma ConfiguredEntries(corsEnv: string, nodeEnv: Option<string>)
    requires corsEnv != ""
    ensures var setting := CorsOrigin(Some(corsEnv), nodeEnv);
      var parts := Split(corsEnv, ',');
      && setting.Origins?
      && |setting.list| == |parts| == Count(corsEnv, ',') + 1
      && Join(parts, ",") == corsEnv
      && (forall i :: 0 <= i < |parts| ==> setting.list[i] == Trim(parts[i]))
      && (forall i :: 0 <= i < |parts| ==> NoPadding(setting.list[i]))
      && (forall i, k :: 0 <= i < |parts| && 0 <= k < |setting.list[i]| ==> setting.list[i][k] != ',')
  {
    var parts := Split(corsEnv, ',');
    SplitJoin(corsEnv, ',');
    var list := CorsOrigin(Some(corsEnv), nodeEnv).list;
    forall i | 0 <= i < |parts| ensures NoPadding(list[i]) && forall k :: 0 <= k < |list[i]| ==> list[i][k] != ',' {
      TrimFree(parts[i], ',');
    }
  }

  /** Trimming keeps a string free of a character it was free of. */
  lemma TrimFree(s: string, c: char)
    requires forall k :: 0 <= k < |s| ==> s[k] != c
    ensures NoPadding(Trim(s))
    ensures forall k :: 0 <= k < |Trim(s)| ==> Trim(s)[k] != c
  {
    var r, start := Trim(s), |s| - |TrimStart(s)|;
    assert forall k :: 0 <= k < |r| ==> r[k] == s[start + k];
  }

  /** Neither leading nor trailing whitespace. */
  predicate NoPadding(s: string) {
    s == [] || (!IsWhitespace(s[0]) && !IsWhitespace(s[|s| - 1]))
  }

  /** The Origin header is not trimmed: with a configured list and no '*', an origin that
      starts or ends with whitespace is refused, even when its trimmed form is listed. */
  lemma PaddedOriginRefused(corsEnv: string, nodeEnv: Option<string>, origin: string)
    requires corsEnv != "" && origin != "" && !NoPadding(origin)
    requires "*" !in CorsOrigin(Some(corsEnv), nodeEnv).list
    ensures Decide(CorsOrigin(Some(corsEnv), nodeEnv), Some(origin)) == Deny(DenyPrefix + origin)
  {
    ConfiguredEntries(corsEnv, nodeEnv);
  }
}
