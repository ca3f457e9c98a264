/** The permission and host-permission parts of the risk score:
    `extract_host_permissions`, `calculate_host_permission_risk` and
    `calculate_permission_risk` of `ExtensionRiskScorer`. */
module Permissions {
  import opened Wrappers
  import opened Seqs
  import opened Text
  import opened JsonValue
  import opened PermissionWeights

  /** The members of a manifest's top-level JSON object. */
  type Manifest = seq<(string, Json)>

  /** The entries of a list-valued manifest field as `for x in manifest[key]` sees
      them: no entries when the key is absent, `None` (a TypeError) when the value
      cannot be iterated. */
  function FieldEntries(m: Manifest, key: string): (r: Option<seq<Json>>)
    ensures !HasKey(m, key) ==> r == Some([])
    ensures HasKey(m, key) ==> r == Iterate(Lookup(m, key).value)
  {
    if HasKey(m, key) then Iterate(Lookup(m, key).value) else Some([])
  }

  // ------------------------------------------------------- host extraction

  /** A `permissions` entry that is a host pattern: a string containing `://` or
      starting with `*`. */
  predicate IsHostPattern(e: Json) {
    e.JString? && (Contains(e.s, "://") || StartsWith(e.s, "*"))
  }

  /** `extract_host_permissions`: the host-pattern strings of `permissions`, in
      order, followed by every entry of `host_permissions`. */
  function ExtractHostPermissions(m: Manifest): (r: Option<seq<Json>>)
    ensures r.None? <==> FieldEntries(m, "permissions").None?
                         || FieldEntries(m, "host_permissions").None?
    ensures r.Some? ==>
      var fromPermissions := Filter(IsHostPattern, FieldEntries(m, "permissions").value);
      && r.value == fromPermissions + FieldEntries(m, "host_permissions").value
      && forall k :: 0 <= k < |fromPermissions| ==> IsHostPattern(r.value[k])
  {
    var permissions :- FieldEntries(m, "permissions");
    var hosts :- FieldEntries(m, "host_permissions");
    Some(Filter(IsHostPattern, permissions) + hosts)
  }

  /** The extracted hosts are the host-pattern entries of `permissions` and every
      entry of `host_permissions`, each occurrence kept. */
  lemma HostPermissionsMembers(m: Manifest)
    requires ExtractHostPermissions(m).Some?
    ensures var hosts := ExtractHostPermissions(m).value;
      var permissions := FieldEntries(m, "permissions").value;
      var declared := FieldEntries(m, "host_permissions").value;
      && (forall e :: e in hosts <==> (e in permissions && IsHostPattern(e)) || e in declared)
      && |hosts| == CountWhere(IsHostPattern, permissions) + |declared|
  {
    var permissions := FieldEntries(m, "permissions").value;
    var kept := Filter(IsHostPattern, permissions);
    forall e | e in kept
      ensures e in permissions && IsHostPattern(e)
    {
      assert e in multiset(kept);
      var k :| 0 <= k < |kept| && kept[k] == e;
    }
  }

  // ----------------------------------------------------------- host scoring

  /** The four patterns that grant every host. */
  const UniversalPatterns: seq<string> := ["<all_urls>", "*://*/*", "http://*/*", "https://*/*"]

  /** The first-match cascade of `calculate_host_permission_risk` for one pattern:
      one of the five scores 10, 8, 6, 4, 2. */
  function PatternScore(p: string): (v: nat)
    ensures 2 <= v <= 10 && v % 2 == 0
  {
    if p in UniversalPatterns then 10
    else if CountChar(p, '*') >= 2 then 8
    else if StartsWith(p, "*://") then 6
    else if '*' in p then 4
    else 2
  }

  /** Which score a pattern gets, by its number of `*` wildcards: universal
      patterns 10; other patterns with two or more wildcards 8; one wildcard 6
      when it opens a `*://` scheme and 4 otherwise; no wildcard 2. */
  lemma PatternScoreByWildcards(p: string)
    ensures PatternScore(p) == 10 <==> p in UniversalPatterns
    ensures PatternScore(p) == 8 <==> p !in UniversalPatterns && CountChar(p, '*') >= 2
    ensures PatternScore(p) == 6 <==> CountChar(p, '*') == 1 && StartsWith(p, "*://")
    ensures PatternScore(p) == 4 <==> CountChar(p, '*') == 1 && !StartsWith(p, "*://")
    ensures PatternScore(p) == 2 <==> CountChar(p, '*') == 0 && p != "<all_urls>"
  {
    if p in UniversalPatterns {
      UniversalWildcards(p);
    }
    WildcardSchemeHasStar(p);
    CountCharZero(p, '*');
  }

  lemma WildcardSchemeHasStar(p: string)
    ensures StartsWith(p, "*://") ==> CountChar(p, '*') >= 1
  {
    if StartsWith(p, "*://") {
      assert p[0] == "*://"[0];
      CountCharStart(p, '*');
    }
  }

  /** Among the universal patterns only `<all_urls>` has no wildcard; the others
      have at least two. */
  lemma UniversalWildcards(p: string)
    requires p in UniversalPatterns
    ensures (p == "<all_urls>" && CountChar(p, '*') == 0)
         || (p != "<all_urls>" && CountChar(p, '*') >= 2)
  {
    var i :| 0 <= i < |UniversalPatterns| && UniversalPatterns[i] == p;
    UniversalWildcardsAt(i);
  }

  lemma UniversalWildcardsAt(i: int)
    requires 0 <= i < |UniversalPatterns|
    ensures var p := UniversalPatterns[i];
            || (p == "<all_urls>" && CountChar(p, '*') == 0)
            || (p != "<all_urls>" && CountChar(p, '*') >= 2)
  {
    var u := UniversalPatterns;
    AllUrlsNoStar();
    if i == 0 {
      assert u[i] == "<all_urls>";
    } else if i == 1 {
      assert u[i] == "*://*/*";
      AnySchemeStars();
    } else if i == 2 {
      assert u[i] == "http://*/*";
      HttpStars();
    } else {
      assert u[i] == "https://*/*";
      HttpsStars();
    }
  }

  lemma AllUrlsNoStar()
    ensures CountChar("<all_urls>", '*') == 0
  {
    CountCharZero("<all_urls>", '*');
  }

  lemma AnySchemeStars()
    ensures CountChar("*://*/*", '*') >= 2
  {
    TwoStars("", "://", "/*");
    assert "" + "*" + "://" + "*" + "/*" == "*://*/*";
  }

  lemma HttpStars()
    ensures CountChar("http://*/*", '*') >= 2
  {
    TwoStars("http://", "/", "");
    assert "http://" + "*" + "/" + "*" + "" == "http://*/*";
  }

  lemma HttpsStars()
    ensures CountChar("https://*/*", '*') >= 2
  {
    TwoStars("https://", "/", "");
    assert "https://" + "*" + "/" + "*" + "" == "https://*/*";
  }

  /** A pattern of the shape `a*b*c` has at least two wildcards. */
  lemma TwoStars(a: string, b: string, c: string)
    ensures CountChar(a + "*" + b + "*" + c, '*') >= 2
  {
    CountCharAppend(a, "*" + b + "*" + c, '*');
    CountCharAppend("*" + b, "*" + c, '*');
    assert a + "*" + b + "*" + c == a + ("*" + b + "*" + c);
    assert "*" + b + "*" + c == ("*" + b) + ("*" + c);
    CountCharStart("*" + b, '*');
    CountCharStart("*" + c, '*');
  }
  /** A list entry equal to the string `*` (what `list.count('*')` counts). */
  predicate IsStar(e: Json) {
    e == JString("*")
  }

  /** One entry of the host list. A string goes through the cascade. A list has a
      `count` method, so a list with two or more `"*"` items scores 8 and any other
      list fails at `startswith`; every other value fails at `count`. */
  function HostEntryScore(e: Json): (r: Option<nat>)
    ensures e.JString? ==> r == Some(PatternScore(e.s))
    ensures r.Some? ==> 2 <= r.value <= 10
    ensures r.None? <==> !e.JString? && !(e.JArray? && CountWhere(IsStar, e.items) >= 2)
    ensures e.JArray? && CountWhere(IsStar, e.items) >= 2 ==> r == Some(8)
  {
    match e
    case JString(p) => Some(PatternScore(p))
    case JArray(items) => if CountWhere(IsStar, items) >= 2 then Some(8) else None
    case _ => None
  }

  /** `calculate_host_permission_risk`: the sum of the entry scores (0 for no
      entries), or `None` when some entry raises. */
  function HostRisk(hosts: seq<Json>): (r: Option<nat>)
    ensures r.Some? <==> forall k :: 0 <= k < |hosts| ==> HostEntryScore(hosts[k]).Some?
    ensures r.Some? ==> 2 * |hosts| <= r.value <= 10 * |hosts|
    ensures |hosts| == 0 ==> r == Some(0)
  {
    if |hosts| == 0 then Some(0)
    else
      var v :- HostEntryScore(hosts[0]);
      var rest :- HostRisk(hosts[1..]);
      Some(v + rest)
  }

  /** Host risk is additive over concatenated host lists. */
  lemma {:induction false} HostRiskConcat(a: seq<Json>, b: seq<Json>)
    ensures HostRisk(a + b).Some? <==> HostRisk(a).Some? && HostRisk(b).Some?
    ensures HostRisk(a + b).Some? ==> HostRisk(a + b).value == HostRisk(a).value + HostRisk(b).value
  {
    if |a| == 0 {
      assert a + b == b;
    } else {
      assert (a + b)[0] == a[0];
      assert (a + b)[1..] == a[1..] + b;
      HostRiskConcat(a[1..], b);
    }
  }

  /** A single host scores as its entry, so with `HostRiskConcat` the host risk is
      the sum of the entry scores. */
  lemma HostRiskSingle(e: Json)
    ensures HostRisk([e]) == HostEntryScore(e)
  {
    assert [e][1..] == [];
  }

  // ----------------------------------------------------- permission scoring

  /** One line of `risky_permissions`: a permission with positive weight, and that
      weight (the source renders it as `"<name> (Score: <weight>)"`). */
  datatype RiskyPermission = RiskyPermission(name: string, weight: nat)

  /** The result of `calculate_permission_risk`. */
  datatype PermissionRisk = PermissionRisk(total: nat, risky: seq<RiskyPermission>)

  /** A permission name, as opposed to a URL pattern: no `://` in it. */
  predicate NotUrl(name: string) {
    !Contains(name, "://")
  }

  /** A JSON string, as `isinstance(p, str)` tests. */
  predicate IsString(e: Json) {
    e.JString?
  }

  /** `[p for p in entries if isinstance(p, str)]`. */
  function StringEntries(entries: seq<Json>): (r: seq<string>)
    ensures |r| <= |entries|
    ensures forall k :: 0 <= k < |r| ==> JString(r[k]) in entries
    ensures forall k :: 0 <= k < |entries| && entries[k].JString? ==> entries[k].s in r
  {
    if |entries| == 0 then []
    else if entries[0].JString? then [entries[0].s] + StringEntries(entries[1..])
    else StringEntries(entries[1..])
  }

  /** The comprehension keeps order and duplicates: the strings of `a + b` are
      those of `a` followed by those of `b`. */
  lemma {:induction false} StringEntriesConcat(a: seq<Json>, b: seq<Json>)
    ensures StringEntries(a + b) == StringEntries(a) + StringEntries(b)
  {
    if |a| == 0 {
      assert a + b == b;
    } else {
      assert (a + b)[0] == a[0];
      assert (a + b)[1..] == a[1..] + b;
      StringEntriesConcat(a[1..], b);
    }
  }

  /** One name per string entry. */
  lemma {:induction false} StringEntriesCount(entries: seq<Json>)
    ensures |StringEntries(entries)| == CountWhere(IsString, entries)
  {
    if |entries| > 0 {
      StringEntriesCount(entries[1..]);
    }
  }

  /** One string entry gives its string; any other entry gives nothing. */
  lemma StringEntriesSingle(e: Json)
    ensures StringEntries([e]) == (if e.JString? then [e.s] else [])
  {
    assert [e][1..] == [];
  }

  /** A name is among the strings of `entries` exactly when it is one of them. */
  lemma StringEntriesMembers(entries: seq<Json>)
    ensures forall x :: x in StringEntries(entries) <==> JString(x) in entries
  {
    forall x | JString(x) in entries
      ensures x in StringEntries(entries)
    {
      var k :| 0 <= k < |entries| && entries[k] == JString(x);
    }
  }

  /** The names `calculate_permission_risk` looks up: the strings of `permissions`
      that hold no `://`, then the strings of `optional_permissions`. */
  function PermissionNames(m: Manifest): (r: Option<seq<string>>)
    ensures r.None? <==> FieldEntries(m, "permissions").None?
                         || FieldEntries(m, "optional_permissions").None?
    ensures r.Some? ==>
      r.value == Filter(NotUrl, StringEntries(FieldEntries(m, "permissions").value))
                 + StringEntries(FieldEntries(m, "optional_permissions").value)
  {
    var permissions :- FieldEntries(m, "permissions");
    var optional :- FieldEntries(m, "optional_permissions");
    Some(Filter(NotUrl, StringEntries(permissions)) + StringEntries(optional))
  }

  /** The names are the non-URL strings of `permissions` and every string of
      `optional_permissions`, each occurrence counted, so a name listed twice is
      weighed twice. */
  lemma PermissionNamesMembers(m: Manifest)
    requires PermissionNames(m).Some?
    ensures var names := PermissionNames(m).value;
      var permissions := FieldEntries(m, "permissions").value;
      var optional := FieldEntries(m, "optional_permissions").value;
      && (forall x :: x in names <==> (JString(x) in permissions && NotUrl(x)) || JString(x) in optional)
      && |names| == CountWhere(NotUrl, StringEntries(permissions)) + CountWhere(IsString, optional)
  {
    var permissions := FieldEntries(m, "permissions").value;
    var optional := FieldEntries(m, "optional_permissions").value;
    var kept := Filter(NotUrl, StringEntries(permissions));
    StringEntriesMembers(permissions);
    StringEntriesMembers(optional);
    StringEntriesCount(optional);
    forall x | x in kept
      ensures x in StringEntries(permissions) && NotUrl(x)
    {
      assert x in multiset(kept);
      var k :| 0 <= k < |kept| && kept[k] == x;
    }
  }

  /** Sum of the weights recorded in a `risky_permissions` list. */
  function WeightsTotal(risky: seq<RiskyPermission>): nat {
    if |risky| == 0 then 0 else risky[0].weight + WeightsTotal(risky[1..])
  }

  /** A name the table gives a positive weight. */
  predicate Weighted(name: string) {
    Weight(name) > 0
  }

  /** The summing loop of `calculate_permission_risk`, over a weight lookup: each
      name with a positive weight adds it to the total and is recorded. The total
      is the sum of the recorded weights. */
  function SumWeights(weight: string -> nat, names: seq<string>): (r: PermissionRisk)
    ensures r.total == WeightsTotal(r.risky)
  {
    if |names| == 0 then PermissionRisk(0, [])
    else
      var rest := SumWeights(weight, names[1..]);
      var w := weight(names[0]);
      if w > 0 then
        var risky := [RiskyPermission(names[0], w)] + rest.risky;
        assert risky[1..] == rest.risky;
        PermissionRisk(w + rest.total, risky)
      else
        rest
  }

  /** The plain sum of the weights of all the names (a name the table does not list
      adds 0). */
  function TableSum(weight: string -> nat, names: seq<string>): nat {
    if |names| == 0 then 0 else weight(names[0]) + TableSum(weight, names[1..])
  }

  /** The summing loop adds up exactly the weights of all the names. */
  lemma {:induction false} SumWeightsIsTableSum(weight: string -> nat, names: seq<string>)
    ensures SumWeights(weight, names).total == TableSum(weight, names)
  {
    if |names| > 0 {
      SumWeightsIsTableSum(weight, names[1..]);
    }
  }

  /** With every weight at most 9, each name adds at most 9. */
  lemma {:induction false} SumWeightsBound(weight: string -> nat, names: seq<string>)
    requires forall n :: weight(n) <= 9
    ensures SumWeights(weight, names).total <= 9 * |names|
  {
    if |names| > 0 {
      SumWeightsBound(weight, names[1..]);
    }
  }

  /** The sum is additive over concatenated name lists. */
  lemma {:induction false} SumWeightsConcat(weight: string -> nat, a: seq<string>, b: seq<string>)
    ensures SumWeights(weight, a + b).total == SumWeights(weight, a).total + SumWeights(weight, b).total
  {
    if |a| == 0 {
      assert a + b == b;
    } else {
      assert (a + b)[1..] == a[1..] + b;
      SumWeightsConcat(weight, a[1..], b);
    }
  }

  /** The recorded entries of concatenated name lists concatenate. */
  lemma SumWeightsConcatRisky(weight: string -> nat, a: seq<string>, b: seq<string>)
    ensures SumWeights(weight, a + b).risky == SumWeights(weight, a).risky + SumWeights(weight, b).risky
  {
    SumWeightsRiskyList(weight, a + b);
    SumWeightsRiskyList(weight, a);
    SumWeightsRiskyList(weight, b);
    RiskyListConcat(weight, a, b);
  }

  /** The recorded list on its own: one entry per name that weighs anything. */
  function RiskyList(weight: string -> nat, names: seq<string>): seq<RiskyPermission> {
    if |names| == 0 then []
    else (if weight(names[0]) > 0 then [RiskyPermission(names[0], weight(names[0]))] else [])
         + RiskyList(weight, names[1..])
  }

  lemma {:induction false} SumWeightsRiskyList(weight: string -> nat, names: seq<string>)
    ensures SumWeights(weight, names).risky == RiskyList(weight, names)
  {
    if |names| > 0 {
      SumWeightsRiskyList(weight, names[1..]);
    }
  }

  lemma {:induction false} RiskyListConcat(weight: string -> nat, a: seq<string>, b: seq<string>)
    ensures RiskyList(weight, a + b) == RiskyList(weight, a) + RiskyList(weight, b)
  {
    if |a| == 0 {
      assert a + b == b;
    } else {
      assert (a + b)[0] == a[0] && (a + b)[1..] == a[1..] + b;
      RiskyListConcat(weight, a[1..], b);
      var head := if weight(a[0]) > 0 then [RiskyPermission(a[0], weight(a[0]))] else [];
      assert head + (RiskyList(weight, a[1..]) + RiskyList(weight, b))
          == (head + RiskyList(weight, a[1..])) + RiskyList(weight, b);
    }
  }

  /** `calculate_permission_risk` proper: the sum over the fixed weight table.
      Each name adds at most the top weight 9. */
  function ScorePermissions(names: seq<string>): (r: PermissionRisk)
    ensures r.total == WeightsTotal(r.risky)
    ensures r.total <= 9 * |names|
  {
    SumWeightsBound(Weight, names);
    SumWeights(Weight, names)
  }

  /** Permission risk is the sum of the table weights over the names, unknown names
      weighing 0 and a repeated name counting each time. */
  lemma ScorePermissionsIsTableSum(names: seq<string>)
    ensures ScorePermissions(names).total == TableSum(Weight, names)
  {
    SumWeightsIsTableSum(Weight, names);
  }

  /** The names of a `risky_permissions` list. */
  function RiskyNames(risky: seq<RiskyPermission>): (r: seq<string>)
    ensures |r| == |risky|
  {
    if |risky| == 0 then [] else [risky[0].name] + RiskyNames(risky[1..])
  }

  /** Permission risk is additive over concatenated name lists (so a name the
      table does not list adds nothing, and a duplicate counts each time). */
  lemma ScorePermissionsConcat(a: seq<string>, b: seq<string>)
    ensures ScorePermissions(a + b).total == ScorePermissions(a).total + ScorePermissions(b).total
    ensures ScorePermissions(a + b).risky == ScorePermissions(a).risky + ScorePermissions(b).risky
  {
    SumWeightsConcat(Weight, a, b);
    SumWeightsConcatRisky(Weight, a, b);
  }

  /** Every recorded entry is a name of the input carrying its positive table weight. */
  lemma {:induction false} RiskyEntriesCarryWeights(names: seq<string>)
    ensures forall e :: e in SumWeights(Weight, names).risky ==>
              e.weight == Weight(e.name) > 0 && e.name in names
  {
    if |names| > 0 {
      RiskyEntriesCarryWeights(names[1..]);
    }
  }

  /** `risky_permissions` has exactly one entry per positive-weight occurrence in
      the names, duplicates included, in the order of the names. */
  lemma {:induction false} RiskyNamesInOrder(names: seq<string>)
    ensures RiskyNames(SumWeights(Weight, names).risky) == Filter(Weighted, names)
  {
    if |names| > 0 {
      RiskyNamesInOrder(names[1..]);
      var r := SumWeights(Weight, names).risky;
      if Weighted(names[0]) {
        assert r[1..] == SumWeights(Weight, names[1..]).risky;
      }
    }
  }

  /** `<all_urls>` listed under `permissions` is not taken for a host pattern (no
      `://`, no leading `*`); it is a permission name instead. */
  lemma AllUrlsUnderPermissions()
    ensures !IsHostPattern(JString("<all_urls>"))
    ensures NotUrl("<all_urls>")
  {
    var s := "<all_urls>";
    assert ':' !in s;
    NoColonNoUrl(s);
    NotHostPattern(s);
  }

  /** As a permission name, `<all_urls>` weighs 9. */
  lemma AllUrlsWeight()
    ensures Weight("<all_urls>") == 9
  {
    assert "<all_urls>" in Weight9;
  }

  /** A string without `:` that does not start with `*` is not a host pattern. */
  lemma NotHostPattern(s: string)
    requires ':' !in s
    requires |s| > 0 ==> s[0] != '*'
    ensures !IsHostPattern(JString(s))
  {
    NoColonNoUrl(s);
  }

  /** A name without `:` is never a URL. */
  lemma NoColonNoUrl(s: string)
    requires ':' !in s
    ensures NotUrl(s)
  {
    ContainsIffAt(s, "://");
    forall j | 0 <= j && j + 3 <= |s|
      ensures !At(s, "://", j)
    {
      assert s[j..j + 3][0] == s[j];
    }
  }
}
