/**
 * The authentication-provider factory of the Pulsar Go client.
 *
 * `NewProvider(name, params)` first decodes `params` as a JSON object of
 * strings and gives up with the decoder's error if that fails; only then does
 * it look `name` up in a fixed, case-sensitive table of accepted scheme names
 * and hand the decoded map to the matching constructor.
 *
 * The JSON decoder and the concrete scheme constructors live outside this
 * model: they are passed in as functions, and the provider type is a type
 * parameter `P` the factory never looks inside.
 */
module ProviderFactory {
  import opened Wrappers

  /** A Go `error`, observed through the text its `Error()` method returns. */
  datatype Error = Error(message: string)

  /** Authentication parameters: the decoded JSON object of string values. */
  type Params = map<string, string>

  /**
   * What a Go function returning `(auth.Provider, error)` hands back.
   * Either half may be nil, and a constructor may even return both or neither.
   */
  datatype Ret<P> = Ret(provider: Option<P>, err: Option<Error>)

  /** The usual Go convention: exactly one of provider and error is non-nil. */
  predicate ExactlyOne<P>(r: Ret<P>) {
    r.provider.Some? != r.err.Some?
  }

  /** `json.Unmarshal` into a `map[string]string`: the decoded map, or the decoder's error. */
  type Decoder = string -> Result<Params, Error>

  /**
   * The constructors of the concrete schemes. The disabled and TLS
   * constructors return only a provider, which the Go interface type allows
   * to be nil; the other four return a provider and an error of their own.
   */
  datatype Constructors<P> = Constructors(
    disabled: Option<P>,
    tls: Params -> Option<P>,
    token: Params -> Ret<P>,
    athenz: Params -> Ret<P>,
    oauth2: Params -> Ret<P>,
    basic: Params -> Ret<P>)

  /** The authentication schemes the factory knows. */
  datatype Scheme = Disabled | Tls | Token | Athenz | OAuth2 | Basic

  // The legacy fully-qualified Java class names, kept as synonyms.
  const TlsClass := "org.apache.pulsar.client.impl.auth.AuthenticationTls"
  const TokenClass := "org.apache.pulsar.client.impl.auth.AuthenticationToken"
  const AthenzClass := "org.apache.pulsar.client.impl.auth.AuthenticationAthenz"
  const OAuth2Class := "org.apache.pulsar.client.impl.auth.oauth2.AuthenticationOAuth2"
  const BasicClass := "org.apache.pulsar.client.impl.auth.AuthenticationBasic"

  /** The short alias of a scheme; the disabled scheme's only name is empty. */
  function ShortName(s: Scheme): string {
    match s
    case Disabled => ""
    case Tls => "tls"
    case Token => "token"
    case Athenz => "athenz"
    case OAuth2 => "oauth2"
    case Basic => "basic"
  }

  /** The legacy class name of a scheme that has one. */
  function ClassName(s: Scheme): string
    requires s != Disabled
  {
    match s
    case Tls => TlsClass
    case Token => TokenClass
    case Athenz => AthenzClass
    case OAuth2 => OAuth2Class
    case Basic => BasicClass
  }

  /** The case labels of the factory's `switch`, tried in order: a name selects a scheme only if it is one of that scheme's names. */
  function SchemeOf(name: string): (r: Option<Scheme>)
    ensures r.Some? ==> name == ShortName(r.value) || (r.value != Disabled && name == ClassName(r.value))
  {
    if name == "" then Some(Disabled)
    else if name == "tls" || name == TlsClass then Some(Tls)
    else if name == "token" || name == TokenClass then Some(Token)
    else if name == "athenz" || name == AthenzClass then Some(Athenz)
    else if name == "oauth2" || name == OAuth2Class then Some(OAuth2)
    else if name == "basic" || name == BasicClass then Some(Basic)
    else None
  }

  /* ---------------------------------------------------------------------
   * The synonym table: an explicit listing of every accepted name, used as
   * an independent reference for the `switch`.
   * --------------------------------------------------------------------- */

  const Synonyms: seq<(string, Scheme)> := [
    ("", Disabled),
    ("tls", Tls), (TlsClass, Tls),
    ("token", Token), (TokenClass, Token),
    ("athenz", Athenz), (AthenzClass, Athenz),
    ("oauth2", OAuth2), (OAuth2Class, OAuth2),
    ("basic", Basic), (BasicClass, Basic)
  ]

  /** First-match lookup of a name in a table. */
  function Lookup(table: seq<(string, Scheme)>, name: string): Option<Scheme> {
    if table == [] then None
    else if table[0].0 == name then Some(table[0].1)
    else Lookup(table[1..], name)
  }

  /** No name appears twice in the table. */
  predicate DistinctNames(table: seq<(string, Scheme)>) {
    forall i, j :: 0 <= i < j < |table| ==> table[i].0 != table[j].0
  }

  /** Lookup misses exactly the names that have no entry. */
  lemma {:induction false} LookupMisses(table: seq<(string, Scheme)>, name: string)
    ensures Lookup(table, name) == None <==> forall e :: e in table ==> e.0 != name
  {
    if table != [] {
      LookupMisses(table[1..], name);
      assert forall e :: e in table ==> e == table[0] || e in table[1..];
    }
  }

  /** In a table without repeated names, lookup finds a scheme exactly when the table pairs it with the name. */
  lemma {:induction false} LookupExact(table: seq<(string, Scheme)>, name: string, s: Scheme)
    requires DistinctNames(table)
    ensures Lookup(table, name) == Some(s) <==> (name, s) in table
  {
    if table != [] {
      assert DistinctNames(table[1..]) by {
        forall i, j | 0 <= i < j < |table[1..]|
          ensures table[1..][i].0 != table[1..][j].0
        {
          assert table[1..][i] == table[i + 1] && table[1..][j] == table[j + 1];
        }
      }
      LookupExact(table[1..], name, s);
      assert forall e :: e in table ==> e == table[0] || e in table[1..];
      if table[0].0 == name {
        forall e | e in table[1..] ensures e.0 != name {
          var k :| 0 <= k < |table[1..]| && table[1..][k] == e;
          assert table[k + 1] == e;
        }
      }
    }
  }

  /** The eleven accepted names are pairwise different. */
  lemma SynonymNamesDistinct()
    ensures |Synonyms| == 11
    ensures DistinctNames(Synonyms)
  {
  }

  /** The `switch` and the synonym table accept the same names and agree on their schemes. */
  lemma SchemeOfMatchesTable(name: string)
    ensures SchemeOf(name) == Lookup(Synonyms, name)
  {
    SynonymNamesDistinct();
    match SchemeOf(name)
    case Some(s) =>
      assert (name, s) in Synonyms;
      LookupExact(Synonyms, name, s);
    case None =>
      LookupMisses(Synonyms, name);
  }

  /** A name is accepted for a scheme exactly when the table lists that pair. */
  lemma SchemeOfExact(name: string, s: Scheme)
    ensures SchemeOf(name) == Some(s) <==> (name, s) in Synonyms
  {
    SynonymNamesDistinct();
    SchemeOfMatchesTable(name);
    LookupExact(Synonyms, name, s);
  }

  /** A name is rejected exactly when no entry of the table carries it. */
  lemma SchemeOfRejects(name: string)
    ensures SchemeOf(name) == None <==> forall e :: e in Synonyms ==> e.0 != name
  {
    SchemeOfMatchesTable(name);
    LookupMisses(Synonyms, name);
  }

  /** Each scheme's short alias and legacy class name both select that scheme. */
  lemma AliasesSelectScheme(s: Scheme)
    ensures SchemeOf(ShortName(s)) == Some(s)
    ensures s != Disabled ==> SchemeOf(ClassName(s)) == Some(s) && ClassName(s) != ShortName(s)
  {
  }

  /** ASCII lower-casing of one character. */
  function LowerChar(c: char): char {
    if 'A' <= c <= 'Z' then (c as int + 32) as char else c
  }

  /** ASCII lower-casing of a string, character by character. */
  function Lower(s: string): (r: string)
    ensures |r| == |s|
    ensures forall k :: 0 <= k < |s| ==> r[k] == LowerChar(s[k])
  {
    seq(|s|, k requires 0 <= k < |s| => LowerChar(s[k]))
  }

  /** Two strings whose lower-casings differ at one position have different lower-casings. */
  lemma LowerDiffersAt(a: string, b: string, k: nat)
    requires k < |a| && k < |b| && LowerChar(a[k]) != LowerChar(b[k])
    ensures Lower(a) != Lower(b)
  {
    assert Lower(a)[k] != Lower(b)[k];
  }

  /** No two accepted names differ only in letter case. */
  lemma LoweredNamesDistinct()
    ensures forall i, j :: 0 <= i < j < |Synonyms| ==> Lower(Synonyms[i].0) != Lower(Synonyms[j].0)
  {
    LowerDiffersAt("token", "basic", 0);
    LowerDiffersAt("athenz", "oauth2", 0);
    LowerDiffersAt(TokenClass, BasicClass, 49);
  }

  /** An accepted name is the only accepted name with its lower-casing. */
  lemma LowerSeparatesNames(n: string, m: string)
    requires SchemeOf(n).Some? && Lower(m) == Lower(n)
    ensures SchemeOf(m).Some? ==> m == n
  {
    if SchemeOf(m).Some? {
      SchemeOfExact(n, SchemeOf(n).value);
      SchemeOfExact(m, SchemeOf(m).value);
      LoweredNamesDistinct();
      var i :| 0 <= i < |Synonyms| && Synonyms[i] == (n, SchemeOf(n).value);
      var j :| 0 <= j < |Synonyms| && Synonyms[j] == (m, SchemeOf(m).value);
      assert Lower(Synonyms[i].0) == Lower(Synonyms[j].0);
      assert i == j;
    }
  }

  /** Matching is case-sensitive: any other spelling of an accepted name that differs only in letter case is unknown. */
  lemma CaseChangeRejected(n: string, m: string)
    requires SchemeOf(n).Some? && m != n && Lower(m) == Lower(n)
    ensures SchemeOf(m) == None
  {
    LowerSeparatesNames(n, m);
  }

  /** No accepted name ends with a space. */
  lemma AcceptedNamesEndUnpadded(x: string)
    ensures SchemeOf(x).Some? && x != "" ==> x[|x| - 1] != ' '
  {
  }

  /** Matching is exact: an accepted name with a space before or after it is unknown. */
  lemma PaddedNameRejected(n: string)
    requires SchemeOf(n).Some?
    ensures SchemeOf(" " + n) == None && SchemeOf(n + " ") == None
  {
    var lead, trail := " " + n, n + " ";
    assert |lead| == |n| + 1;
    assert n != "" ==> lead[|lead| - 1] == n[|n| - 1];
    AcceptedNamesEndUnpadded(trail);
    assert trail[|trail| - 1] == ' ';
  }

  /** Examples: changes of letter case are not accepted. */
  lemma NamesAreCaseSensitive()
    ensures SchemeOf("TLS") == None && SchemeOf("Token") == None && SchemeOf("OAuth2") == None
    ensures SchemeOf("org.apache.pulsar.client.impl.auth.authenticationtls") == None
  {
  }

  /* ---------------------------------------------------------------------
   * The error for an unknown name.
   * --------------------------------------------------------------------- */

  const UnknownPrefix := "invalid auth provider '"

  /** `part` occurs in `text` starting at position `i`. */
  predicate OccursAt(text: string, part: string, i: int) {
    0 <= i <= |text| - |part| && text[i..i + |part|] == part
  }

  /** `text` holds `part` as a contiguous piece. */
  ghost predicate Mentions(text: string, part: string) {
    exists i :: OccursAt(text, part, i)
  }

  /** `fmt.Errorf("invalid auth provider '%s'", name)`: an error whose message names the provider. */
  function UnknownProviderError(name: string): (e: Error)
    ensures Mentions(e.message, name)
    ensures UnknownPrefix <= e.message
  {
    var msg := UnknownPrefix + name + "'";
    assert OccursAt(msg, name, |UnknownPrefix|);
    Error(msg)
  }

  /** Reads the provider name back out of an unknown-provider message. */
  function ProviderNameIn(message: string): Option<string> {
    if |message| > |UnknownPrefix| && message[..|UnknownPrefix|] == UnknownPrefix
       && message[|message| - 1] == '\''
    then Some(message[|UnknownPrefix|..|message| - 1])
    else None
  }

  /** The unknown-provider message determines the name that caused it. */
  lemma UnknownProviderErrorNamesProvider(name: string)
    ensures ProviderNameIn(UnknownProviderError(name).message) == Some(name)
  {
    var msg := UnknownProviderError(name).message;
    assert msg == UnknownPrefix + name + "'";
    assert msg[|UnknownPrefix|..|msg| - 1] == name;
  }

  /** Different unknown names give different errors. */
  lemma UnknownProviderErrorInjective(a: string, b: string)
    requires a != b
    ensures UnknownProviderError(a) != UnknownProviderError(b)
  {
    UnknownProviderErrorNamesProvider(a);
    UnknownProviderErrorNamesProvider(b);
  }

  /* ---------------------------------------------------------------------
   * The factory.
   * --------------------------------------------------------------------- */

  /** `parseParams`: the decoded map and no error, or no map and the decoder's error. */
  function ParseParams(decode: Decoder, params: string): (r: (Option<Params>, Option<Error>))
    ensures r.0.Some? != r.1.Some?
    ensures decode(params).Success? ==> r.0 == Some(decode(params).value)
    ensures decode(params).Failure? ==> r.1 == Some(decode(params).error)
  {
    match decode(params)
    case Success(m) => (Some(m), None)
    case Failure(e) => (None, Some(e))
  }

  /** `NewProvider`: decode the parameters, then dispatch on the name. */
  function NewProvider<P>(decode: Decoder, ctors: Constructors<P>, name: string, params: string): (r: Ret<P>)
    ensures decode(params).Failure? ==> r == Ret(None, Some(decode(params).error))
    ensures r.provider.Some? ==> decode(params).Success? && SchemeOf(name).Some?
    ensures decode(params).Success? && SchemeOf(name) == None ==>
              r == Ret(None, Some(UnknownProviderError(name)))
    ensures decode(params).Failure? || SchemeOf(name) == None ==> ExactlyOne(r)
    ensures decode(params).Success? && SchemeOf(name) in {Some(Disabled), Some(Tls)} ==>
              r.err == None && (ExactlyOne(r) <==> r.provider.Some?)
  {
    var (m, err) := ParseParams(decode, params);
    if err.Some? then Ret(None, err)
    else
      var p := m.value;
      match SchemeOf(name)
      case Some(Disabled) => Ret(ctors.disabled, None)
      case Some(Tls) => Ret(ctors.tls(p), None)
      case Some(Token) => ctors.token(p)
      case Some(Athenz) => ctors.athenz(p)
      case Some(OAuth2) => ctors.oauth2(p)
      case Some(Basic) => ctors.basic(p)
      case None => Ret(None, Some(UnknownProviderError(name)))
  }

  /* ---------------------------------------------------------------------
   * Properties of the factory.
   * --------------------------------------------------------------------- */

  /** A parameter error wins over any name, known or unknown: both calls return the decoder's error. */
  lemma ParseErrorTakesPrecedence<P>(decode: Decoder, ctors: Constructors<P>, name: string, other: string, params: string)
    requires decode(params).Failure?
    ensures NewProvider(decode, ctors, name, params) == NewProvider(decode, ctors, other, params)
    ensures NewProvider(decode, ctors, name, params) == Ret(None, Some(decode(params).error))
  {
  }

  /** An empty name with parameters that decode gives the disabled provider and no error. */
  lemma EmptyNameGivesDisabled<P>(decode: Decoder, ctors: Constructors<P>, params: string)
    requires decode(params).Success?
    ensures NewProvider(decode, ctors, "", params) == Ret(ctors.disabled, None)
  {
  }

  /**
   * There is no special case for empty parameters: a decoder that rejects ""
   * makes even the empty name fail. This is the instance `params == ""` of
   * `ParseErrorTakesPrecedence`, stated on its own for the empty input.
   */
  lemma EmptyParamsRejected<P>(decode: Decoder, ctors: Constructors<P>, name: string)
    requires decode("").Failure?
    ensures NewProvider(decode, ctors, name, "") == Ret(None, Some(decode("").error))
  {
  }

  /** A short alias and its legacy class name give identical results for the same parameters. */
  lemma SynonymsEquivalent<P>(decode: Decoder, ctors: Constructors<P>, s: Scheme, params: string)
    requires s != Disabled
    ensures NewProvider(decode, ctors, ShortName(s), params) == NewProvider(decode, ctors, ClassName(s), params)
  {
    AliasesSelectScheme(s);
  }

  /** Any two names the table gives the same scheme give identical results. */
  lemma SameSchemeSameResult<P>(decode: Decoder, ctors: Constructors<P>, a: string, b: string, params: string)
    requires SchemeOf(a).Some? && SchemeOf(a) == SchemeOf(b)
    ensures NewProvider(decode, ctors, a, params) == NewProvider(decode, ctors, b, params)
  {
  }

  /** Once the parameters decode, the TLS names never fail and yield the TLS provider built from the map. */
  lemma TlsNeverFails<P>(decode: Decoder, ctors: Constructors<P>, name: string, params: string)
    requires decode(params).Success? && SchemeOf(name) == Some(Tls)
    ensures NewProvider(decode, ctors, name, params) == Ret(ctors.tls(decode(params).value), None)
  {
  }

  /** For token, athenz, oauth2 and basic the constructor's pair is returned as it is, error included. */
  lemma FallibleConstructorsVerbatim<P>(decode: Decoder, ctors: Constructors<P>, name: string, params: string)
    requires decode(params).Success?
    ensures var m := decode(params).value;
            var r := NewProvider(decode, ctors, name, params);
            && (SchemeOf(name) == Some(Token) ==> r == ctors.token(m))
            && (SchemeOf(name) == Some(Athenz) ==> r == ctors.athenz(m))
            && (SchemeOf(name) == Some(OAuth2) ==> r == ctors.oauth2(m))
            && (SchemeOf(name) == Some(Basic) ==> r == ctors.basic(m))
  {
  }

  /** A name outside the table gives no provider and an error that names it. */
  lemma UnknownNameRejected<P>(decode: Decoder, ctors: Constructors<P>, name: string, params: string)
    requires decode(params).Success?
    requires forall e :: e in Synonyms ==> e.0 != name
    ensures var r := NewProvider(decode, ctors, name, params);
            && r.provider.None? && r.err.Some?
            && Mentions(r.err.value.message, name)
            && ProviderNameIn(r.err.value.message) == Some(name)
  {
    SchemeOfRejects(name);
    UnknownProviderErrorNamesProvider(name);
  }
}
