// The JSON configuration file that the server renders for each node, and a
// reader for it.
module Config {
  import opened Basics

  // ----- rendering -----

  datatype JsonValue = Text(s: string) | True

  type Member = (string, JsonValue)

  function ValueText(v: JsonValue): string {
    match v
    case Text(s) => "\"" + s + "\""
    case True => "true"
  }

  // The text from the first key's quote up to the end.
  function MembersText(ms: seq<Member>): string {
    if ms == [] then "\n}" else
      "\"" + ms[0].0 + "\":" + ValueText(ms[0].1)
      + if |ms| == 1 then "\n}" else ",\n\t" + MembersText(ms[1..])
  }

  function ObjectText(ms: seq<Member>): string {
    "{\n\t" + MembersText(ms)
  }

  const FIXED_MEMBERS: seq<Member> := [
    ("network-peer-list-gossip-frequency", Text("250ms")),
    ("network-max-reconnect-delay", Text("1s")),
    ("public-ip", Text("127.0.0.1")),
    ("health-check-frequency", Text("2s")),
    ("api-admin-enabled", True),
    ("api-ipcs-enabled", True),
    ("index-enabled", True),
    ("log-display-level", Text("INFO"))
  ]

  function ConfigMembers(level: string, logDir: string, dbDir: string, subnets: string): seq<Member> {
    FIXED_MEMBERS + [
      ("log-level", Text(level)),
      ("log-dir", Text(logDir)),
      ("db-dir", Text(dbDir)),
      ("whitelisted-subnets", Text(subnets))
    ]
  }

  function ConfigText(level: string, logDir: string, dbDir: string, subnets: string): string {
    ObjectText(ConfigMembers(level, logDir, dbDir, subnets))
  }

  // strings.ToUpper on the letters a to z; other characters are kept.
  function Upper(s: string): string {
    seq(|s|, i requires 0 <= i < |s| => if 'a' <= s[i] <= 'z' then s[i] - 'a' + 'A' else s[i])
  }

  const SMALL_LETTERS := "abcdefghijklmnopqrstuvwxyz"
  const CAPITALS := "ABCDEFGHIJKLMNOPQRSTUVWXYZ"

  // Each small letter becomes its capital, everything else stays.
  lemma UpperIs(s: string, i: nat)
    requires i < |s|
    ensures |Upper(s)| == |s|
    ensures forall j :: 0 <= j < 26 && s[i] == SMALL_LETTERS[j] ==> Upper(s)[i] == CAPITALS[j]
    ensures s[i] !in SMALL_LETTERS ==> Upper(s)[i] == s[i]
  {
    Alphabet();
    if 'a' <= s[i] <= 'z' {
      assert SMALL_LETTERS[(s[i] - 'a') as int] == s[i];
    }
  }

  lemma Alphabet()
    ensures forall j :: 0 <= j < 26 ==> SMALL_LETTERS[j] == 'a' + j as char
    ensures forall j :: 0 <= j < 26 ==> CAPITALS[j] == 'A' + j as char
  {
  }

  function EffectiveLevel(level: string): string {
    Upper(if level == "" then "INFO" else level)
  }

  // The file newNetwork writes.
  function StartText(level: string, logDir: string, dbDir: string, subnets: string): string {
    ConfigText(EffectiveLevel(level), logDir, dbDir, subnets)
  }

  // The file RestartNode writes, from its own copy of the template.
  function RestartMembers(logDir: string, dbDir: string, subnets: string): seq<Member> {
    [
      ("network-peer-list-gossip-frequency", Text("250ms")),
      ("network-max-reconnect-delay", Text("1s")),
      ("public-ip", Text("127.0.0.1")),
      ("health-check-frequency", Text("2s")),
      ("api-admin-enabled", True),
      ("api-ipcs-enabled", True),
      ("index-enabled", True),
      ("log-display-level", Text("INFO")),
      ("log-level", Text("INFO")),
      ("log-dir", Text(logDir)),
      ("db-dir", Text(dbDir)),
      ("whitelisted-subnets", Text(subnets))
    ]
  }

  function RestartText(logDir: string, dbDir: string, subnets: string): string {
    ObjectText(RestartMembers(logDir, dbDir, subnets))
  }

  // ----- reading -----

  // Characters that a JSON string holds without an escape: section 7 of RFC 8259.
  predicate PlainChar(c: char) {
    c != '"' && c != '\\' && c >= ' '
  }

  predicate Plain(s: string) {
    forall i :: 0 <= i < |s| ==> PlainChar(s[i])
  }

  predicate PlainValue(v: JsonValue) {
    v.Text? ==> Plain(v.s)
  }

  predicate PlainMembers(ms: seq<Member>) {
    forall i :: 0 <= i < |ms| ==> Plain(ms[i].0) && PlainValue(ms[i].1)
  }

  function SkipSpace(t: string): (r: string)
    ensures |r| <= |t|
  {
    if t != [] && t[0] in {' ', '\n', '\t', '\r'} then SkipSpace(t[1..]) else t
  }

  // Reads an escape-free string up to its closing quote: what it holds, and the rest.
  function ScanString(t: string): (r: Option<(string, string)>)
    ensures r.Some? ==> Plain(r.value.0) && |r.value.1| < |t|
  {
    if t == [] then None
    else if t[0] == '"' then Some(([], t[1..]))
    else if !PlainChar(t[0]) then None
    else
      match ScanString(t[1..])
      case None => None
      case Some((s, rest)) => Some(([t[0]] + s, rest))
  }

  function ScanValue(t: string): (r: Option<(JsonValue, string)>)
    ensures r.Some? ==> PlainValue(r.value.0) && |r.value.1| < |t|
  {
    if "\"" <= t then
      match ScanString(t[1..])
      case None => None
      case Some((s, rest)) => Some((Text(s), rest))
    else if "true" <= t then Some((True, t[4..]))
    else None
  }

  // One `"key":value` and the text after it.
  function ScanMember(t: string): (r: Option<(Member, string)>)
    ensures r.Some? ==> Plain(r.value.0.0) && PlainValue(r.value.0.1) && |r.value.1| < |t|
  {
    if !("\"" <= t) then None else
      match ScanString(t[1..])
      case None => None
      case Some((key, t1)) =>
        if !(":" <= t1) then None else
          match ScanValue(t1[1..])
          case None => None
          case Some((value, t2)) => Some(((key, value), t2))
  }

  function ScanMembers(t: string): (r: Option<seq<Member>>)
    ensures r.Some? ==> PlainMembers(r.value)
    decreases |t|
  {
    match ScanMember(t)
    case None => None
    case Some((m, rest)) =>
      var t3 := SkipSpace(rest);
      if "," <= t3 then
        match ScanMembers(SkipSpace(t3[1..]))
        case None => None
        case Some(ms) => Some([m] + ms)
      else if "}" <= t3 && SkipSpace(t3[1..]) == [] then Some([m])
      else None
  }

  // Reads a flat, escape-free JSON object.
  function ReadObject(t: string): (r: Option<seq<Member>>)
    ensures r.Some? ==> PlainMembers(r.value)
  {
    if "{" <= t then ScanMembers(SkipSpace(t[1..])) else None
  }

  // ----- round trip -----

  lemma {:induction false} ScanStringBack(s: string, rest: string)
    requires Plain(s)
    ensures ScanString(s + "\"" + rest) == Some((s, rest))
  {
    var t := s + "\"" + rest;
    if s == [] {
      assert t[0] == '"' && t[1..] == rest;
    } else {
      ScanStringBack(s[1..], rest);
      assert t[0] == s[0] && PlainChar(s[0]);
      assert t[1..] == s[1..] + "\"" + rest;
      assert [s[0]] + s[1..] == s;
    }
  }

  lemma ScanMemberBack(m: Member, rest: string)
    requires Plain(m.0) && PlainValue(m.1)
    ensures ScanMember("\"" + m.0 + "\":" + ValueText(m.1) + rest) == Some((m, rest))
  {
    var t := "\"" + m.0 + "\":" + ValueText(m.1) + rest;
    var t1 := ":" + ValueText(m.1) + rest;
    assert t[1..] == m.0 + "\"" + t1;
    ScanStringBack(m.0, t1);
    assert t1[1..] == ValueText(m.1) + rest;
    match m.1
    case Text(s) =>
      assert t1[1..][1..] == s + "\"" + rest;
      ScanStringBack(s, rest);
    case True =>
      assert t1[1..][4..] == rest;
  }

  lemma SkipSpaceStops(pre: string, t: string)
    requires pre in {"\n", "\n\t"}
    requires t != [] && t[0] !in {' ', '\n', '\t', '\r'}
    ensures SkipSpace(pre + t) == t
    ensures SkipSpace(t) == t
  {
    if pre == "\n" {
      assert (pre + t)[1..] == t;
    } else {
      var t1 := (pre + t)[1..];
      assert t1 == "\t" + t;
      assert t1[1..] == t;
      assert SkipSpace(t1) == SkipSpace(t);
    }
  }

  lemma LastMemberBack(m: Member)
    requires Plain(m.0) && PlainValue(m.1)
    ensures ScanMembers("\"" + m.0 + "\":" + ValueText(m.1) + "\n}") == Some([m])
  {
    hide ScanMember, ValueText, Plain, PlainValue;
    ScanMemberBack(m, "\n}");
    SkipSpaceStops("\n", "}");
    assert "\n" + "}" == "\n}";
    assert "}"[1..] == [];
  }

  lemma NextMemberBack(m: Member, tail: string, ms: seq<Member>)
    requires Plain(m.0) && PlainValue(m.1)
    requires tail != [] && tail[0] == '"' && ScanMembers(tail) == Some(ms)
    ensures ScanMembers("\"" + m.0 + "\":" + ValueText(m.1) + (",\n\t" + tail)) == Some([m] + ms)
  {
    hide ScanMember, ValueText, Plain, PlainValue;
    var rest := ",\n\t" + tail;
    ScanMemberBack(m, rest);
    assert SkipSpace(rest) == rest;
    assert rest[1..] == "\n\t" + tail;
    SkipSpaceStops("\n\t", tail);
  }

  lemma {:induction false} ScanMembersBack(ms: seq<Member>)
    requires ms != [] && PlainMembers(ms)
    ensures MembersText(ms) != [] && MembersText(ms)[0] == '"'
    ensures ScanMembers(MembersText(ms)) == Some(ms)
  {
    hide ScanMembers, ValueText;
    if |ms| == 1 {
      LastMemberBack(ms[0]);
      assert ms == [ms[0]];
    } else {
      ScanMembersBack(ms[1..]);
      NextMemberBack(ms[0], MembersText(ms[1..]), ms[1..]);
      assert [ms[0]] + ms[1..] == ms;
    }
  }

  lemma ReadObjectBack(ms: seq<Member>)
    requires ms != [] && PlainMembers(ms)
    ensures ReadObject(ObjectText(ms)) == Some(ms)
  {
    ScanMembersBack(ms);
    var t := ObjectText(ms);
    assert t[1..] == "\n\t" + MembersText(ms);
    SkipSpaceStops("\n\t", MembersText(ms));
  }

  lemma FixedKeysPlain()
    ensures Plain("network-peer-list-gossip-frequency")
    ensures Plain("network-max-reconnect-delay")
    ensures Plain("public-ip")
    ensures Plain("health-check-frequency")
  {
  }

  lemma FixedKeysPlain2()
    ensures Plain("api-admin-enabled")
    ensures Plain("api-ipcs-enabled")
    ensures Plain("index-enabled")
    ensures Plain("log-display-level")
  {
  }

  lemma FixedTextsPlain()
    ensures Plain("250ms") && Plain("1s") && Plain("127.0.0.1") && Plain("2s") && Plain("INFO")
    ensures Plain("log-level") && Plain("log-dir") && Plain("db-dir") && Plain("whitelisted-subnets")
  {
  }

  lemma FixedMembersPlain()
    ensures PlainMembers(FIXED_MEMBERS)
  {
    FixedKeysPlain();
    FixedKeysPlain2();
    FixedTextsPlain();
  }

  // The reader recovers every field exactly when no argument needs an escape.
  lemma ConfigRoundTrip(level: string, logDir: string, dbDir: string, subnets: string)
    ensures ReadObject(ConfigText(level, logDir, dbDir, subnets))
            == Some(ConfigMembers(level, logDir, dbDir, subnets))
            <==> Plain(level) && Plain(logDir) && Plain(dbDir) && Plain(subnets)
  {
    var ms := ConfigMembers(level, logDir, dbDir, subnets);
    var last := [("log-level", Text(level)), ("log-dir", Text(logDir)),
                 ("db-dir", Text(dbDir)), ("whitelisted-subnets", Text(subnets))];
    assert forall i :: 0 <= i < 4 ==> ms[8 + i] == last[i];
    if Plain(level) && Plain(logDir) && Plain(dbDir) && Plain(subnets) {
      FixedTextsPlain();
      assert PlainMembers(last);
      FixedMembersPlain();
      ReadObjectBack(ms);
    } else {
      assert !PlainValue(ms[8].1) || !PlainValue(ms[9].1) || !PlainValue(ms[10].1) || !PlainValue(ms[11].1);
    }
  }

  // All that stands under a key.
  function Values(ms: seq<Member>, key: string): seq<JsonValue> {
    if ms == [] then [] else (if ms[0].0 == key then [ms[0].1] else []) + Values(ms[1..], key)
  }

  // A plain configuration file says what it was given, each under its own key,
  // once.
  lemma ConfigFields(level: string, logDir: string, dbDir: string, subnets: string)
    requires Plain(level) && Plain(logDir) && Plain(dbDir) && Plain(subnets)
    ensures var r := ReadObject(ConfigText(level, logDir, dbDir, subnets));
      && r.Some?
      && Values(r.value, "log-level") == [Text(level)]
      && Values(r.value, "log-dir") == [Text(logDir)]
      && Values(r.value, "db-dir") == [Text(dbDir)]
      && Values(r.value, "whitelisted-subnets") == [Text(subnets)]
  {
    ConfigRoundTrip(level, logDir, dbDir, subnets);
    var ms := ConfigMembers(level, logDir, dbDir, subnets);
    hide ReadObject, ConfigText, Plain;
    assert forall i :: 0 <= i < |ms| ==> (ms[i].0 == "log-level" <==> i == 8);
    assert forall i :: 0 <= i < |ms| ==> (ms[i].0 == "log-dir" <==> i == 9);
    assert forall i :: 0 <= i < |ms| ==> (ms[i].0 == "db-dir" <==> i == 10);
    assert forall i :: 0 <= i < |ms| ==> (ms[i].0 == "whitelisted-subnets" <==> i == 11);
    OnlyOne(ms, "log-level", 8);
    OnlyOne(ms, "log-dir", 9);
    OnlyOne(ms, "db-dir", 10);
    OnlyOne(ms, "whitelisted-subnets", 11);
  }

  // The rest of it is the same for every node: twelve members in all.
  lemma ConfigFixedFields(level: string, logDir: string, dbDir: string, subnets: string)
    requires Plain(level) && Plain(logDir) && Plain(dbDir) && Plain(subnets)
    ensures var r := ReadObject(ConfigText(level, logDir, dbDir, subnets));
      && r.Some? && |r.value| == 12
      && Values(r.value, "network-peer-list-gossip-frequency") == [Text("250ms")]
      && Values(r.value, "network-max-reconnect-delay") == [Text("1s")]
      && Values(r.value, "public-ip") == [Text("127.0.0.1")]
      && Values(r.value, "health-check-frequency") == [Text("2s")]
      && Values(r.value, "api-admin-enabled") == [True]
      && Values(r.value, "api-ipcs-enabled") == [True]
      && Values(r.value, "index-enabled") == [True]
      && Values(r.value, "log-display-level") == [Text("INFO")]
  {
    ConfigRoundTrip(level, logDir, dbDir, subnets);
    hide ReadObject, ConfigText, Plain;
    FirstFields(level, logDir, dbDir, subnets);
    NextFields(level, logDir, dbDir, subnets);
  }

  lemma FirstFields(level: string, logDir: string, dbDir: string, subnets: string)
    ensures var ms := ConfigMembers(level, logDir, dbDir, subnets);
      && Values(ms, "network-peer-list-gossip-frequency") == [Text("250ms")]
      && Values(ms, "network-max-reconnect-delay") == [Text("1s")]
      && Values(ms, "public-ip") == [Text("127.0.0.1")]
      && Values(ms, "health-check-frequency") == [Text("2s")]
  {
    var ms := ConfigMembers(level, logDir, dbDir, subnets);
    assert forall i :: 0 <= i < |ms| ==> (ms[i].0 == "network-peer-list-gossip-frequency" <==> i == 0);
    assert forall i :: 0 <= i < |ms| ==> (ms[i].0 == "network-max-reconnect-delay" <==> i == 1);
    assert forall i :: 0 <= i < |ms| ==> (ms[i].0 == "public-ip" <==> i == 2);
    assert forall i :: 0 <= i < |ms| ==> (ms[i].0 == "health-check-frequency" <==> i == 3);
    OnlyOne(ms, "network-peer-list-gossip-frequency", 0);
    OnlyOne(ms, "network-max-reconnect-delay", 1);
    OnlyOne(ms, "public-ip", 2);
    OnlyOne(ms, "health-check-frequency", 3);
  }

  lemma NextFields(level: string, logDir: string, dbDir: string, subnets: string)
    ensures var ms := ConfigMembers(level, logDir, dbDir, subnets);
      && Values(ms, "api-admin-enabled") == [True]
      && Values(ms, "api-ipcs-enabled") == [True]
      && Values(ms, "index-enabled") == [True]
      && Values(ms, "log-display-level") == [Text("INFO")]
  {
    var ms := ConfigMembers(level, logDir, dbDir, subnets);
    assert forall i :: 0 <= i < |ms| ==> (ms[i].0 == "api-admin-enabled" <==> i == 4);
    assert forall i :: 0 <= i < |ms| ==> (ms[i].0 == "api-ipcs-enabled" <==> i == 5);
    assert forall i :: 0 <= i < |ms| ==> (ms[i].0 == "index-enabled" <==> i == 6);
    assert forall i :: 0 <= i < |ms| ==> (ms[i].0 == "log-display-level" <==> i == 7);
    OnlyOne(ms, "api-admin-enabled", 4);
    OnlyOne(ms, "api-ipcs-enabled", 5);
    OnlyOne(ms, "index-enabled", 6);
    OnlyOne(ms, "log-display-level", 7);
  }

  lemma {:induction false} NoneOfIt(ms: seq<Member>, key: string)
    requires forall i :: 0 <= i < |ms| ==> ms[i].0 != key
    ensures Values(ms, key) == []
  {
    if ms != [] {
      NoneOfIt(ms[1..], key);
    }
  }

  lemma {:induction false} OnlyOne(ms: seq<Member>, key: string, k: nat)
    requires k < |ms| && forall i :: 0 <= i < |ms| ==> (ms[i].0 == key <==> i == k)
    ensures Values(ms, key) == [ms[k].1]
  {
    if k == 0 {
      NoneOfIt(ms[1..], key);
    } else {
      OnlyOne(ms[1..], key, k - 1);
    }
  }

  // Hence two plain settings with one text are the same settings.
  lemma ConfigInjective(l1: string, g1: string, d1: string, s1: string,
                        l2: string, g2: string, d2: string, s2: string)
    requires Plain(l1) && Plain(g1) && Plain(d1) && Plain(s1)
    requires Plain(l2) && Plain(g2) && Plain(d2) && Plain(s2)
    requires ConfigText(l1, g1, d1, s1) == ConfigText(l2, g2, d2, s2)
    ensures l1 == l2 && g1 == g2 && d1 == d2 && s1 == s2
  {
    ConfigRoundTrip(l1, g1, d1, s1);
    ConfigRoundTrip(l2, g2, d2, s2);
    var m1, m2 := ConfigMembers(l1, g1, d1, s1), ConfigMembers(l2, g2, d2, s2);
    assert m1[8] == m2[8] && m1[9] == m2[9] && m1[10] == m2[10] && m1[11] == m2[11];
  }

  // The two templates agree: restarting renders what starting at INFO renders.
  lemma RestartTemplateAgrees(logDir: string, dbDir: string, subnets: string)
    ensures RestartText(logDir, dbDir, subnets) == StartText("", logDir, dbDir, subnets)
    ensures RestartText(logDir, dbDir, subnets) == StartText("info", logDir, dbDir, subnets)
    ensures RestartText(logDir, dbDir, subnets) == ConfigText("INFO", logDir, dbDir, subnets)
  {
    assert Upper("INFO") == "INFO";
    assert Upper("info") == "INFO";
    assert RestartMembers(logDir, dbDir, subnets) == ConfigMembers("INFO", logDir, dbDir, subnets);
  }

  // What stands between the log directory and the db directory in the text.
  const BETWEEN := "\"" + (",\n\t" + ("\"" + "db-dir" + "\":" + "\""))

  function LastMembers(logDir: string, dbDir: string, subnets: string): seq<Member> {
    [("log-dir", Text(logDir)), ("db-dir", Text(dbDir)), ("whitelisted-subnets", Text(subnets))]
  }

  function AfterDbDir(subnets: string): string {
    "\"" + (",\n\t" + MembersText([("whitelisted-subnets", Text(subnets))]))
  }

  // One textual member and what follows it, as opening, value, rest.
  lemma TextMember(key: string, value: string, rest: string)
    ensures "\"" + key + "\":" + ValueText(Text(value)) + rest
            == ("\"" + key + "\":" + "\"") + (value + ("\"" + rest))
  {
  }

  lemma LastMembersText(logDir: string, dbDir: string, subnets: string)
    ensures MembersText(LastMembers(logDir, dbDir, subnets))
            == ("\"" + "log-dir" + "\":" + "\"") + (logDir + (BETWEEN + (dbDir + AfterDbDir(subnets))))
  {
    var x := LastMembers(logDir, dbDir, subnets);
    var last := ",\n\t" + MembersText([("whitelisted-subnets", Text(subnets))]);
    assert x[1..][1..] == [("whitelisted-subnets", Text(subnets))];
    TextMember("db-dir", dbDir, last);
    TextMember("log-dir", logDir, ",\n\t" + MembersText(x[1..]));
    Assoc4("\"", ",\n\t", "\"" + "db-dir" + "\":" + "\"", dbDir + AfterDbDir(subnets));
  }

  lemma Assoc4(a: string, b: string, c: string, d: string)
    ensures a + (b + (c + d)) == (a + (b + c)) + d
  {
  }

  lemma {:induction false} SameTailSameText(common: seq<Member>, a: seq<Member>, b: seq<Member>)
    requires a != [] && b != [] && MembersText(a) == MembersText(b)
    ensures MembersText(common + a) == MembersText(common + b)
  {
    if common == [] {
      assert common + a == a && common + b == b;
    } else {
      SameTailSameText(common[1..], a, b);
      assert (common + a)[1..] == common[1..] + a;
      assert (common + b)[1..] == common[1..] + b;
    }
  }

  // ----- a quote in the subnets -----

  // Subnets that close their string and go on with a member of their own.
  function Injected(x: string, key: string, y: string): string {
    x + ("\",\n\t\"" + (key + ("\":\"" + y)))
  }

  lemma InjectedText(x: string, key: string, y: string)
    ensures MembersText([("whitelisted-subnets", Text(Injected(x, key, y)))])
            == MembersText([("whitelisted-subnets", Text(x)), (key, Text(y))])
  {
    var two := [("whitelisted-subnets", Text(x)), (key, Text(y))];
    assert two[1..] == [(key, Text(y))];
    TextMember(key, y, "\n}");
    TextMember("whitelisted-subnets", x, ",\n\t" + MembersText(two[1..]));
    TextMember("whitelisted-subnets", Injected(x, key, y), "\n}");
    InjectedRegroup(x, key, y);
  }

  lemma InjectedRegroup(x: string, key: string, y: string)
    ensures Injected(x, key, y) + ("\"" + "\n}")
            == x + ("\"" + (",\n\t" + (("\"" + key + "\":" + "\"") + (y + ("\"" + "\n}")))))
  {
  }

  // The template does not escape what it is given. For all plain arguments:
  // subnets with quotes in them make a file that reads as one member more.
  lemma SubnetsAddAMember(level: string, logDir: string, dbDir: string, x: string, key: string, y: string)
    requires Plain(level) && Plain(logDir) && Plain(dbDir) && Plain(x) && Plain(key) && Plain(y)
    ensures ReadObject(ConfigText(level, logDir, dbDir, Injected(x, key, y)))
            == Some(ConfigMembers(level, logDir, dbDir, x) + [(key, Text(y))])
  {
    hide MembersText, Injected, ReadObject, Plain;
    var common := FIXED_MEMBERS + [("log-level", Text(level)), ("log-dir", Text(logDir)), ("db-dir", Text(dbDir))];
    var one := [("whitelisted-subnets", Text(Injected(x, key, y)))];
    var two := [("whitelisted-subnets", Text(x)), (key, Text(y))];
    InjectedText(x, key, y);
    SameTailSameText(common, one, two);
    assert ConfigMembers(level, logDir, dbDir, Injected(x, key, y)) == common + one;
    var ms := ConfigMembers(level, logDir, dbDir, x) + [(key, Text(y))];
    assert ms == common + two;
    AllPlain(level, logDir, dbDir, x);
    assert PlainMembers(ms);
    ReadObjectBack(ms);
  }

  lemma AllPlain(level: string, logDir: string, dbDir: string, subnets: string)
    requires Plain(level) && Plain(logDir) && Plain(dbDir) && Plain(subnets)
    ensures PlainMembers(ConfigMembers(level, logDir, dbDir, subnets))
  {
    ConfigRoundTrip(level, logDir, dbDir, subnets);
  }

  // ----- what equal files have in common -----

  lemma UpperHasNoSmallLetters(s: string, i: nat)
    requires i < |s|
    ensures Upper(s)[i] != 'l'
  {
  }

  lemma UpperKeepsPlain(s: string)
    ensures Plain(Upper(s)) <==> Plain(s)
  {
    assert forall i :: 0 <= i < |s| ==> (PlainChar(Upper(s)[i]) <==> PlainChar(s[i]));
    if Plain(Upper(s)) {
      forall i | 0 <= i < |s| ensures PlainChar(s[i]) {
        assert PlainChar(Upper(s)[i]);
      }
    }
  }

  lemma EffectiveLevelPlain(level: string)
    ensures Plain(EffectiveLevel(level)) <==> Plain(level)
  {
    FixedTextsPlain();
    UpperKeepsPlain(if level == "" then "INFO" else level);
  }

  // What follows the log level in the text.
  function AfterLevel(logDir: string, dbDir: string, subnets: string): (t: string)
    ensures "\",\n\t\"l" <= t
  {
    var rest := MembersText(LastMembers(logDir, dbDir, subnets));
    LastMembersText(logDir, dbDir, subnets);
    assert "\"l" <= rest;
    "\"" + (",\n\t" + rest)
  }

  // A level without the letter l ends where the text's first quote after it stands.
  lemma LevelEndsAtQuote(a: string, t1: string, b: string, t2: string)
    requires "\",\n\t\"l" <= t1 && "\",\n\t\"l" <= t2 && a + t1 == b + t2 && |a| <= |b|
    requires forall i :: 0 <= i < |b| ==> b[i] != 'l'
    ensures a == b && t1 == t2
  {
    var t, d := a + t1, |b| - |a|;
    assert forall j :: 0 <= j < |t1| ==> t[|a| + j] == t1[j];
    assert forall j :: 0 <= j < |t2| ==> t[|b| + j] == t2[j];
    assert t1[0] == t2[0] == '"' && t1[1] == t2[1] == ',' && t1[2] == '\n' && t1[3] == '\t';
    assert t1[4] == '"' && t1[5] == 'l';
    assert t[|a| + 5] == 'l';
    assert forall j :: 0 <= j < |b| ==> t[j] == b[j];
    assert d <= 5;
    assert t[|a| + d] == '"' && t[|a| + d + 1] == ',';
    assert t1[d] == '"';
    assert d == 0;
    assert a == t[..|a|] == b;
    assert t1 == t[|a|..] == t2;
  }

  lemma SameLevels(l1: string, l2: string, t1: string, t2: string)
    requires "\",\n\t\"l" <= t1 && "\",\n\t\"l" <= t2 && EffectiveLevel(l1) + t1 == EffectiveLevel(l2) + t2
    ensures EffectiveLevel(l1) == EffectiveLevel(l2) && t1 == t2
  {
    var a, b := EffectiveLevel(l1), EffectiveLevel(l2);
    forall i | 0 <= i < |a| ensures a[i] != 'l' {
      UpperHasNoSmallLetters(if l1 == "" then "INFO" else l1, i);
    }
    forall i | 0 <= i < |b| ensures b[i] != 'l' {
      UpperHasNoSmallLetters(if l2 == "" then "INFO" else l2, i);
    }
    hide EffectiveLevel;
    if |a| <= |b| {
      LevelEndsAtQuote(a, t1, b, t2);
    } else {
      LevelEndsAtQuote(b, t2, a, t1);
    }
  }

  lemma {:induction false} SameTextSameTail(common: seq<Member>, a: seq<Member>, b: seq<Member>)
    requires a != [] && b != [] && MembersText(common + a) == MembersText(common + b)
    ensures MembersText(a) == MembersText(b)
  {
    if common == [] {
      assert common + a == a && common + b == b;
    } else {
      assert (common + a)[1..] == common[1..] + a;
      assert (common + b)[1..] == common[1..] + b;
      var lead := "\"" + common[0].0 + "\":" + ValueText(common[0].1);
      assert MembersText(common + a) == lead + (",\n\t" + MembersText(common[1..] + a));
      assert MembersText(common + b) == lead + (",\n\t" + MembersText(common[1..] + b));
      SamePrefix(lead, ",\n\t" + MembersText(common[1..] + a), ",\n\t" + MembersText(common[1..] + b));
      SamePrefix(",\n\t", MembersText(common[1..] + a), MembersText(common[1..] + b));
      SameTextSameTail(common[1..], a, b);
    }
  }

  lemma SamePrefix(p: string, a: string, b: string)
    requires p + a == p + b
    ensures a == b
  {
    assert a == (p + a)[|p|..] && b == (p + b)[|p|..];
  }

  lemma LevelText(level: string, logDir: string, dbDir: string, subnets: string)
    ensures MembersText([("log-level", Text(level))] + LastMembers(logDir, dbDir, subnets))
            == ("\"" + "log-level" + "\":" + "\"") + (level + AfterLevel(logDir, dbDir, subnets))
  {
    var x := [("log-level", Text(level))] + LastMembers(logDir, dbDir, subnets);
    assert x[1..] == LastMembers(logDir, dbDir, subnets);
    TextMember("log-level", level, ",\n\t" + MembersText(x[1..]));
  }

  lemma SameAfterDbDir(s1: string, s2: string)
    requires AfterDbDir(s1) == AfterDbDir(s2)
    ensures s1 == s2
  {
    var open := "\"" + "whitelisted-subnets" + "\":" + "\"";
    TextMember("whitelisted-subnets", s1, "\n}");
    TextMember("whitelisted-subnets", s2, "\n}");
    SamePrefix("\"", ",\n\t" + (open + (s1 + ("\"" + "\n}"))), ",\n\t" + (open + (s2 + ("\"" + "\n}"))));
    SamePrefix(",\n\t", open + (s1 + ("\"" + "\n}")), open + (s2 + ("\"" + "\n}")));
    SamePrefix(open, s1 + ("\"" + "\n}"), s2 + ("\"" + "\n}"));
    var t1, t2 := s1 + ("\"" + "\n}"), s2 + ("\"" + "\n}");
    assert s1 == t1[..|t1| - 3] && s2 == t2[..|t2| - 3];
  }

  lemma SplitMembers(level: string, logDir: string, dbDir: string, subnets: string)
    ensures ConfigText(level, logDir, dbDir, subnets)
            == "{\n\t" + MembersText(
                 FIXED_MEMBERS + ([("log-level", Text(level))] + LastMembers(logDir, dbDir, subnets)))
  {
    hide MembersText;
    assert ConfigMembers(level, logDir, dbDir, subnets)
        == FIXED_MEMBERS + ([("log-level", Text(level))] + LastMembers(logDir, dbDir, subnets));
  }

  // What the text says from the log directory on.
  lemma SameAfterLevel(g1: string, d1: string, s1: string, g2: string, d2: string, s2: string)
    requires AfterLevel(g1, d1, s1) == AfterLevel(g2, d2, s2)
    ensures g1 + (BETWEEN + (d1 + AfterDbDir(s1))) == g2 + (BETWEEN + (d2 + AfterDbDir(s2)))
  {
    hide AfterDbDir;
    var open := "\"" + "log-dir" + "\":" + "\"";
    LastMembersText(g1, d1, s1);
    LastMembersText(g2, d2, s2);
    var r1, r2 := MembersText(LastMembers(g1, d1, s1)), MembersText(LastMembers(g2, d2, s2));
    SamePrefix("\"", ",\n\t" + r1, ",\n\t" + r2);
    SamePrefix(",\n\t", r1, r2);
    SamePrefix(open, g1 + (BETWEEN + (d1 + AfterDbDir(s1))), g2 + (BETWEEN + (d2 + AfterDbDir(s2))));
  }

  // Plain strings end at the first quote.
  lemma PlainEndsAtQuote(a: string, t1: string, b: string, t2: string)
    requires Plain(a) && Plain(b) && "\"" <= t1 && "\"" <= t2 && a + t1 == b + t2
    ensures a == b && t1 == t2
  {
    assert t1 == "\"" + t1[1..] && t2 == "\"" + t2[1..];
    assert a + t1 == a + "\"" + t1[1..] && b + t2 == b + "\"" + t2[1..];
    ScanStringBack(a, t1[1..]);
    ScanStringBack(b, t2[1..]);
  }

  // The directories can be told from the text when they are plain, and it does
  // not matter what they hold when they are the same.
  predicate DirsReadable(g1: string, d1: string, g2: string, d2: string) {
    (Plain(g1) && Plain(d1) && Plain(g2) && Plain(d2)) || (g1 == g2 && d1 == d2)
  }

  lemma SameDirs(g1: string, d1: string, s1: string, g2: string, d2: string, s2: string)
    requires DirsReadable(g1, d1, g2, d2)
    requires g1 + (BETWEEN + (d1 + AfterDbDir(s1))) == g2 + (BETWEEN + (d2 + AfterDbDir(s2)))
    ensures g1 == g2 && d1 == d2 && s1 == s2
  {
    hide Plain, MembersText;
    if g1 == g2 && d1 == d2 {
      SamePrefix(g1, BETWEEN + (d1 + AfterDbDir(s1)), BETWEEN + (d2 + AfterDbDir(s2)));
      SamePrefix(BETWEEN, d1 + AfterDbDir(s1), d2 + AfterDbDir(s2));
      SamePrefix(d1, AfterDbDir(s1), AfterDbDir(s2));
    } else {
      PlainEndsAtQuote(g1, BETWEEN + (d1 + AfterDbDir(s1)), g2, BETWEEN + (d2 + AfterDbDir(s2)));
      SamePrefix(BETWEEN, d1 + AfterDbDir(s1), d2 + AfterDbDir(s2));
      PlainEndsAtQuote(d1, AfterDbDir(s1), d2, AfterDbDir(s2));
    }
    SameAfterDbDir(s1, s2);
  }

  lemma TextsFromLevel(l1: string, g1: string, d1: string, s1: string,
                       l2: string, g2: string, d2: string, s2: string)
    requires ConfigText(l1, g1, d1, s1) == ConfigText(l2, g2, d2, s2)
    ensures l1 + AfterLevel(g1, d1, s1) == l2 + AfterLevel(g2, d2, s2)
  {
    hide MembersText, AfterLevel, LastMembers;
    var x1 := [("log-level", Text(l1))] + LastMembers(g1, d1, s1);
    var x2 := [("log-level", Text(l2))] + LastMembers(g2, d2, s2);
    SplitMembers(l1, g1, d1, s1);
    SplitMembers(l2, g2, d2, s2);
    SamePrefix("{\n\t", MembersText(FIXED_MEMBERS + x1), MembersText(FIXED_MEMBERS + x2));
    SameTextSameTail(FIXED_MEMBERS, x1, x2);
    LevelText(l1, g1, d1, s1);
    LevelText(l2, g2, d2, s2);
    SamePrefix("\"" + "log-level" + "\":" + "\"", l1 + AfterLevel(g1, d1, s1), l2 + AfterLevel(g2, d2, s2));
  }

  // Whatever the levels and the subnets hold, quotes included: two launches
  // write one file only if their effective levels, directories and subnets are
  // the same.
  lemma FileFixesSettings(l1: string, g1: string, d1: string, s1: string,
                          l2: string, g2: string, d2: string, s2: string)
    requires DirsReadable(g1, d1, g2, d2)
    ensures StartText(l1, g1, d1, s1) == StartText(l2, g2, d2, s2)
            <==> EffectiveLevel(l1) == EffectiveLevel(l2) && g1 == g2 && d1 == d2 && s1 == s2
  {
    hide ConfigText, AfterLevel, EffectiveLevel, AfterDbDir, DirsReadable;
    if StartText(l1, g1, d1, s1) == StartText(l2, g2, d2, s2) {
      TextsFromLevel(EffectiveLevel(l1), g1, d1, s1, EffectiveLevel(l2), g2, d2, s2);
      SameLevels(l1, l2, AfterLevel(g1, d1, s1), AfterLevel(g2, d2, s2));
      SameAfterLevel(g1, d1, s1, g2, d2, s2);
      SameDirs(g1, d1, s1, g2, d2, s2);
    }
  }

  // For all strings, plain or not: both directories of a node hang off one
  // root, so that equal files of one level and one list of subnets have one root.
  lemma FileFixesRoot(level: string, name: string, r1: string, r2: string, subnets: string)
    ensures ConfigText(level, LogDir(r1, name), DbDir(r1, name), subnets)
            == ConfigText(level, LogDir(r2, name), DbDir(r2, name), subnets)
            <==> r1 == r2
  {
    hide ConfigText, AfterLevel, AfterDbDir, LogDir, DbDir;
    var g1, d1, g2, d2 := LogDir(r1, name), DbDir(r1, name), LogDir(r2, name), DbDir(r2, name);
    if ConfigText(level, g1, d1, subnets) == ConfigText(level, g2, d2, subnets) {
      TextsFromLevel(level, g1, d1, subnets, level, g2, d2, subnets);
      SamePrefix(level, AfterLevel(g1, d1, subnets), AfterLevel(g2, d2, subnets));
      SameAfterLevel(g1, d1, subnets, g2, d2, subnets);
      SameRoots(r1, r2, name, AfterDbDir(subnets));
    }
  }

  lemma SameRoots(r1: string, r2: string, name: string, t: string)
    requires LogDir(r1, name) + (BETWEEN + (DbDir(r1, name) + t))
             == LogDir(r2, name) + (BETWEEN + (DbDir(r2, name) + t))
    ensures r1 == r2
  {
    var x1 := LogDir(r1, name) + (BETWEEN + (DbDir(r1, name) + t));
    var x2 := LogDir(r2, name) + (BETWEEN + (DbDir(r2, name) + t));
    assert |LogDir(r1, name)| == |r1| + |LogDir("", name)| && |LogDir(r2, name)| == |r2| + |LogDir("", name)|;
    assert |DbDir(r1, name)| == |r1| + |DbDir("", name)| && |DbDir(r2, name)| == |r2| + |DbDir("", name)|;
    assert |r1| == |r2|;
    assert r1 == LogDir(r1, name)[..|r1|] && r2 == LogDir(r2, name)[..|r2|];
    assert LogDir(r1, name) == x1[..|LogDir(r1, name)|] && LogDir(r2, name) == x2[..|LogDir(r2, name)|];
  }

  // For all strings, plain or not: a start and a restart of a node write the
  // same file exactly when the start was at level INFO and with these subnets.
  lemma SameFileExactlyWhen(level: string, logDir: string, dbDir: string, s1: string, s2: string)
    ensures StartText(level, logDir, dbDir, s1) == RestartText(logDir, dbDir, s2)
            <==> EffectiveLevel(level) == "INFO" && s1 == s2
  {
    hide StartText, RestartText;
    assert EffectiveLevel("") == "INFO";
    RestartTemplateAgrees(logDir, dbDir, s2);
    FileFixesSettings(level, logDir, dbDir, s1, "", logDir, dbDir, s2);
  }
}
