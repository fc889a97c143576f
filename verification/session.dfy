/**
 * A client's life as a sequence of setter calls after construction. Getters
 * and lookups do not change the client, so a session is its setter calls.
 */
module Session {
  import opened Wrappers
  import opened OpenWeatherMap

  datatype Op = SetApiKeyOp(apiKey: string) | SetUnitsOp(units: string) | SetLanguageOp(language: string) {
    /** The settings property the call overwrites. */
    function Field(): string {
      match this
      case SetApiKeyOp(_) => "apiKey"
      case SetUnitsOp(_) => "units"
      case SetLanguageOp(_) => "language"
    }

    function Value(): string {
      match this
      case SetApiKeyOp(v) => v
      case SetUnitsOp(v) => v
      case SetLanguageOp(v) => v
    }
  }

  function Apply(c: Client, op: Op): (r: Client)
    ensures Fields(r.settings) == Fields(c.settings)[op.Field() := op.Value()]
    ensures r.baseURL == c.baseURL
  {
    match op
    case SetApiKeyOp(k) => SetApiKey(c, k)
    case SetUnitsOp(u) => SetUnits(c, u)
    case SetLanguageOp(l) => SetLanguage(c, l)
  }

  /** The client after the calls in `ops`, in order. */
  function Run(c: Client, ops: seq<Op>): Client
    decreases |ops|
  {
    if ops == [] then c else Run(Apply(c, ops[0]), ops[1..])
  }

  /** True when no call in `ops` overwrites `field`. */
  predicate Untouched(ops: seq<Op>, field: string) {
    forall i :: 0 <= i < |ops| ==> ops[i].Field() != field
  }

  /** No call changes the base URL. */
  lemma {:induction false} RunKeepsBaseURL(c: Client, ops: seq<Op>)
    ensures Run(c, ops).baseURL == c.baseURL
    decreases |ops|
  {
    if ops != [] {
      RunKeepsBaseURL(Apply(c, ops[0]), ops[1..]);
    }
  }

  /** A property no call in the session overwrites keeps its value. */
  lemma {:induction false} RunKeepsUntouched(c: Client, ops: seq<Op>, field: string)
    requires field in FieldNames && Untouched(ops, field)
    ensures Fields(Run(c, ops).settings)[field] == Fields(c.settings)[field]
    decreases |ops|
  {
    if ops != [] {
      assert ops[0].Field() != field;
      assert Untouched(ops[1..], field) by {
        forall i | 0 <= i < |ops[1..]| ensures ops[1..][i].Field() != field {
          assert ops[1..][i] == ops[i + 1];
        }
      }
      RunKeepsUntouched(Apply(c, ops[0]), ops[1..], field);
    }
  }

  /** Every URL a client built by the constructor ever builds starts with the fixed base URL. */
  lemma SessionURLsStartWithBaseURL(init: InitRecord, ops: seq<Op>, endpoint: Endpoint, query: string)
    requires "apiKey" in init
    ensures var url := BuildURL(Run(New(init), ops), endpoint, query);
            |url| >= |BaseURL| && url[..|BaseURL|] == BaseURL
  {
    var c := Run(New(init), ops);
    RunKeepsBaseURL(New(init), ops);
    var url := BuildURL(c, endpoint, query);
    assert url[..|URLPrefix(c, endpoint)|][..|BaseURL|] == BaseURL;
  }

  /** After `setApiKey(k)`, every URL ends with `&appid=` and `k` until the key is set again. */
  lemma LastApiKeyWins(c: Client, apiKey: string, ops: seq<Op>, endpoint: Endpoint, query: string)
    requires Untouched(ops, "apiKey")
    ensures var url := BuildURL(Run(SetApiKey(c, apiKey), ops), endpoint, query);
            |url| >= |AppIdParameter + apiKey| && url[|url| - |AppIdParameter + apiKey|..] == AppIdParameter + apiKey
  {
    RunKeepsUntouched(SetApiKey(c, apiKey), ops, "apiKey");
    assert Fields(Run(SetApiKey(c, apiKey), ops).settings)["apiKey"] == apiKey;
  }

  /** Changing units and language, however often, never changes a URL. */
  lemma UnitsAndLanguageNeverChangeURL(c: Client, ops: seq<Op>, endpoint: Endpoint, query: string)
    requires Untouched(ops, "apiKey")
    ensures BuildURL(Run(c, ops), endpoint, query) == BuildURL(c, endpoint, query)
  {
    RunKeepsBaseURL(c, ops);
    RunKeepsUntouched(c, ops, "apiKey");
  }

  /** A lookup right after a call reads the call's value for its own key and the old value for every other key. */
  lemma GetSettingsAfterApply(c: Client, op: Op, key: string)
    requires key != ""
    ensures key == op.Field() ==>
      GetSettings(Apply(c, op), Some(key)) == Text(if op.Value() != "" then op.Value() else NotFound(key))
    ensures key != op.Field() ==> GetSettings(Apply(c, op), Some(key)) == GetSettings(c, Some(key))
  {
  }
}
