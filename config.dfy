/** Start-up configuration: the allow-list parser and the fail-fast check
    (utils/config.py). */
module Config {
  import opened Wrappers
  import opened Text

  /** The ids one comma-separated item contributes: its value when, once
      stripped, it is all digits, and nothing otherwise. */
  function ItemIds(item: string): (r: set<int>)
    ensures forall id :: id in r ==> IsDigits(Strip(item)) && id == DecimalValue(Strip(item))
    ensures IsDigits(Strip(item)) ==> DecimalValue(Strip(item)) in r
  {
    var t := Strip(item);
    if IsDigits(t) then {DecimalValue(t)} else {}
  }

  /** The ids a sequence of items contributes. */
  function IdsOf(items: seq<string>): (r: set<int>)
    ensures forall id :: id in r ==> id >= 0
  {
    if |items| == 0 then {} else IdsOf(items[..|items| - 1]) + ItemIds(items[|items| - 1])
  }

  /** What parse_user_ids returns for value. */
  function UserIds(value: string): (r: set<int>)
    ensures forall id :: id in r ==> id >= 0
    ensures value == "" ==> r == {}
  {
    if value == "" then {} else IdsOf(Split(value, ','))
  }

  /** parse_user_ids: split on commas, strip every item, keep the all-digit
      items as numbers. */
  method ParseUserIds(value: string) returns (ids: set<int>)
    ensures ids == UserIds(value)
    ensures value == "" ==> ids == {}
  {
    if value == "" {
      return {};
    }
    ids := {};
    var items := Split(value, ',');
    var i := 0;
    while i < |items|
      invariant 0 <= i <= |items|
      invariant ids == IdsOf(items[..i])
    {
      var item := Strip(items[i]);
      assert ItemIds(items[i]) == if IsDigits(item) then {DecimalValue(item)} else {};
      if IsDigits(item) {
        ids := ids + {DecimalValue(item)};
      }
      assert ids == IdsOf(items[..i]) + ItemIds(items[i]);
      IdsOfSnoc(items, i);
      i := i + 1;
    }
    assert items[..i] == items;
  }

  lemma IdsOfSnoc(items: seq<string>, i: nat)
    requires i < |items|
    ensures IdsOf(items[..i + 1]) == IdsOf(items[..i]) + ItemIds(items[i])
  {
    assert items[..i + 1][..i] == items[..i];
  }

  /** An id is in the result exactly when some item contributes it. */
  lemma {:induction false} IdsOfMembership(items: seq<string>, id: int)
    ensures id in IdsOf(items) <==> exists k :: 0 <= k < |items| && id in ItemIds(items[k])
  {
    if |items| > 0 {
      var init := items[..|items| - 1];
      IdsOfMembership(init, id);
      if id in IdsOf(init) {
        var k :| 0 <= k < |init| && id in ItemIds(init[k]);
        assert items[k] == init[k];
      }
      if exists k :: 0 <= k < |items| && id in ItemIds(items[k]) {
        var k :| 0 <= k < |items| && id in ItemIds(items[k]);
        if k < |init| {
          assert init[k] == items[k];
        }
      }
    }
  }

  /** Every returned id is the value of a comma-separated item that is all
      digits after stripping, so none is negative. */
  lemma UserIdsSound(value: string, id: int)
    requires id in UserIds(value)
    ensures id >= 0
    ensures exists k :: 0 <= k < |Split(value, ',')| && IsDigits(Strip(Split(value, ',')[k]))
                        && DecimalValue(Strip(Split(value, ',')[k])) == id
  {
    IdsOfMembership(Split(value, ','), id);
    var k :| 0 <= k < |Split(value, ',')| && id in ItemIds(Split(value, ',')[k]);
  }

  /** The early return for "" changes nothing: the general path gives the
      empty set too. */
  lemma EmptyValueRedundant()
    ensures IdsOf(Split("", ',')) == UserIds("")
  {
    assert Split("", ',') == [""];
    assert [""][..0] == [];
  }

  lemma {:induction false} IdsOfConcat(xs: seq<string>, ys: seq<string>)
    ensures IdsOf(xs + ys) == IdsOf(xs) + IdsOf(ys)
    decreases |ys|
  {
    if |ys| == 0 {
      assert xs + ys == xs;
    } else {
      var ys' := ys[..|ys| - 1];
      assert (xs + ys)[..|xs + ys| - 1] == xs + ys';
      IdsOfConcat(xs, ys');
    }
  }

  /** A list of ids is the union of its comma-separated halves: order and
      repetition do not matter. */
  lemma UserIdsConcat(a: string, b: string)
    ensures UserIds(a + "," + b) == UserIds(a) + UserIds(b)
  {
    EmptyValueRedundant();
    SplitConcat(a, b, ',');
    IdsOfConcat(Split(a, ','), Split(b, ','));
  }

  lemma {:induction false} SplitWithoutSeparator(s: string, sep: char)
    requires sep !in s
    ensures Split(s, sep) == [s]
  {
    if |s| > 0 {
      SplitWithoutSeparator(s[1..], sep);
      assert [s[0]] + s[1..] == s;
    }
  }

  /** Whitespace around a single item does not matter. */
  lemma UserIdsPadded(p: string, s: string, q: string)
    requires AllSpace(p) && AllSpace(q) && ',' !in s
    ensures UserIds(p + s + q) == UserIds(s)
  {
    EmptyValueRedundant();
    assert forall i :: 0 <= i < |p| ==> p[i] != ',';
    assert forall i :: 0 <= i < |q| ==> q[i] != ',';
    assert ',' !in p + s + q;
    SplitWithoutSeparator(p + s + q, ',');
    SplitWithoutSeparator(s, ',');
    StripPadded(p, s, q);
    assert [p + s + q][..0] == [] && [s][..0] == [];
  }

  /** Items that are not plain digit strings (a sign, an inner space, an empty
      piece) contribute nothing, silently. */
  lemma NonNumericItemsDropped()
    ensures ItemIds("-5") == {} && ItemIds("1 2") == {} && ItemIds("") == {}
  {
    assert "-5"[0] == '-' && "1 2"[1] == ' ';
    StripTrimmed("-5");
    StripTrimmed("1 2");
  }

  /** The configuration read from the environment (os.getenv with defaults). */
  datatype Settings = Settings(
    botToken: string,
    allowedUserIds: set<int>,
    openRouterApiKey: string,
    googleSheetId: string,
    googleServiceAccountFile: string)

  function Getenv(env: map<string, string>, key: string, default: string): string
  {
    if key in env then env[key] else default
  }

  function FromEnvironment(env: map<string, string>): (c: Settings)
    ensures c.allowedUserIds == UserIds(Getenv(env, "ALLOWED_USER_IDS", ""))
    ensures "BOT_TOKEN" !in env ==> c.botToken == ""
    ensures "GOOGLE_SERVICE_ACCOUNT_FILE" !in env ==> c.googleServiceAccountFile == "service-account.json"
  {
    Settings(
      Getenv(env, "BOT_TOKEN", ""),
      UserIds(Getenv(env, "ALLOWED_USER_IDS", "")),
      Getenv(env, "OPENROUTER_API_KEY", ""),
      Getenv(env, "GOOGLE_SHEET_ID", ""),
      Getenv(env, "GOOGLE_SERVICE_ACCOUNT_FILE", "service-account.json"))
  }

  datatype ConfigError = MissingBotToken | MissingAllowedUserIds

  /** Config.validate: fails on a missing bot token first, then on an empty
      allow-list; otherwise returns True. */
  function Validate(c: Settings): (r: Result<bool, ConfigError>)
    ensures r.Success? <==> c.botToken != "" && c.allowedUserIds != {}
    ensures r.Success? ==> r.value
    ensures c.botToken == "" ==> r == Failure(MissingBotToken)
    ensures c.botToken != "" && c.allowedUserIds == {} ==> r == Failure(MissingAllowedUserIds)
  {
    if c.botToken == "" then Failure(MissingBotToken)
    else if c.allowedUserIds == {} then Failure(MissingAllowedUserIds)
    else Success(true)
  }
}
