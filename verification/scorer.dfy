/** `calculate_total_risk`: from the text of one extension file (optional metadata
    block, then the manifest JSON) to a score and its breakdown. The score is
    permission risk + host risk + user factor + rating factor; any failure on
    the way gives the score 0 with an empty breakdown. */
module Scorer {
  import opened Wrappers
  import opened Seqs
  import opened Text
  import opened JsonValue
  import opened Permissions
  import opened Factors
  import opened Metadata

  /** The context flags of `additional_flags`, in the order they are added. */
  datatype Flag = ExternallyConnectable | ContentScripts | WebAccessibleResources

  /** The breakdown dictionary. `permissionRisk` and `hostRisk` are in points (they
      are integers); the two factors and the total are in half-points. */
  datatype Breakdown = Breakdown(
    permissionRisk: nat,
    hostRisk: nat,
    userFactor: HalfPoints,
    ratingFactor: HalfPoints,
    totalRisk: HalfPoints,
    level: RiskLevel,
    hostPermissions: seq<Json>,
    riskyPermissions: seq<RiskyPermission>,
    flags: seq<Flag>,
    userCount: int,
    rating: real,
    reviewCount: int,
    externallyConnectable: bool,
    contentScripts: bool)

  /** The pair `calculate_total_risk` returns: the score in half-points and the
      breakdown, `None` standing for the empty dictionary. */
  datatype Assessment = Assessment(score: HalfPoints, breakdown: Option<Breakdown>)

  /** `(0.0, {})`, the answer to every failure. */
  const Failed := Assessment(0, None)

  /** What every breakdown the scorer builds satisfies: the total is the sum of
      the four parts, the level is the level of that total, the parts stay in
      their ranges and agree with the recorded inputs, and the flags agree with
      the two booleans. */
  predicate Consistent(b: Breakdown) {
    && b.totalRisk == 2 * b.permissionRisk + 2 * b.hostRisk + b.userFactor + b.ratingFactor
    && b.level == Level(b.totalRisk)
    && b.permissionRisk == WeightsTotal(b.riskyPermissions)
    && 2 * |b.hostPermissions| <= b.hostRisk <= 10 * |b.hostPermissions|
    && b.userFactor == UserFactorOfCount(b.userCount)
    && b.ratingFactor == RatingCascade(b.rating, b.reviewCount)
    && (ExternallyConnectable in b.flags <==> b.externallyConnectable)
    && (ContentScripts in b.flags <==> b.contentScripts)
  }

  /** A consistent breakdown's total is bounded by its parts: together the two
      factors add at most 3 points and take off at most 1.5. */
  lemma ConsistentTotalBounds(b: Breakdown)
    requires Consistent(b)
    ensures 2 * b.permissionRisk + 2 * b.hostRisk - 3 <= b.totalRisk
    ensures b.totalRisk <= 2 * b.permissionRisk + 2 * b.hostRisk + 6
    ensures b.totalRisk >= 4 * |b.hostPermissions| - 3
  {
    assert 0 <= b.userFactor <= 4;
    assert -3 <= b.ratingFactor <= 2;
  }

  // ------------------------------------------------------------ manifest flags

  /** `has_externally_connectable`. */
  predicate HasExternallyConnectable(m: Manifest) {
    HasKey(m, "externally_connectable")
  }

  /** `has_content_scripts`: the key is present and its value is non-empty; `len`
      of a value without a length raises (`None`). */
  function HasContentScripts(m: Manifest): (r: Option<bool>)
    ensures !HasKey(m, "content_scripts") ==> r == Some(false)
    ensures HasKey(m, "content_scripts") ==>
              var v := Lookup(m, "content_scripts").value;
              && (r.None? <==> v.JNull? || v.JBool? || v.JNumber?)
              && (r == Some(true) <==> Iterate(v).Some? && |Iterate(v).value| > 0)
  {
    if !HasKey(m, "content_scripts") then Some(false)
    else
      var n :- Len(Lookup(m, "content_scripts").value);
      Some(n > 0)
  }

  /** The `additional_flags` list. */
  function Flags(externallyConnectable: bool, contentScripts: bool, webAccessible: bool): (r: seq<Flag>)
    ensures ExternallyConnectable in r <==> externallyConnectable
    ensures ContentScripts in r <==> contentScripts
    ensures WebAccessibleResources in r <==> webAccessible
    ensures |r| == (if externallyConnectable then 1 else 0) + (if contentScripts then 1 else 0)
                   + (if webAccessible then 1 else 0)
    ensures externallyConnectable ==> r[0] == ExternallyConnectable
    ensures webAccessible ==> r[|r| - 1] == WebAccessibleResources
  {
    (if externallyConnectable then [ExternallyConnectable] else [])
    + (if contentScripts then [ContentScripts] else [])
    + (if webAccessible then [WebAccessibleResources] else [])
  }

  // ------------------------------------------------------ scoring a manifest

  /** The scoring part of `calculate_total_risk` on a decoded manifest object and
      parsed metadata: missing metadata defaults to 0 users, rating 5.0 and 0
      reviews. `None` when one of the steps raises. */
  function ScoreManifest(m: Manifest, md: Metadata, parseFloat: string -> Option<real>): (r: Option<Breakdown>)
    ensures r.None? <==>
              || ExtractHostPermissions(m).None?
              || PermissionNames(m).None?
              || HostRisk(ExtractHostPermissions(m).value).None?
              || HasContentScripts(m).None?
    ensures r.Some? ==>
              var b := r.value;
              && Consistent(b)
              && b.hostPermissions == ExtractHostPermissions(m).value
              && b.hostRisk == HostRisk(b.hostPermissions).value
              && b.riskyPermissions == ScorePermissions(PermissionNames(m).value).risky
              && b.userCount == md.userCount.GetOr(0)
              && b.rating == md.rating.GetOr(5.0)
              && b.reviewCount == md.ratingCount.GetOr(0)
              && b.externallyConnectable == HasExternallyConnectable(m)
              && b.contentScripts == HasContentScripts(m).value
              && (WebAccessibleResources in b.flags <==> HasKey(m, "web_accessible_resources"))
  {
    var hosts :- ExtractHostPermissions(m);
    var names :- PermissionNames(m);
    var permissions := ScorePermissions(names);
    var hostRisk :- HostRisk(hosts);
    var userCount := md.userCount.GetOr(0);
    var rating := md.rating.GetOr(5.0);
    var reviews := md.ratingCount.GetOr(0);
    var userFactor := UserFactor(Int(userCount));
    var ratingFactor := RatingFactor(Float(rating), Int(reviews), parseFloat);
    var total := 2 * permissions.total + 2 * hostRisk + userFactor + ratingFactor;
    var contentScripts :- HasContentScripts(m);
    var externallyConnectable := HasExternallyConnectable(m);
    Some(Breakdown(
      permissions.total, hostRisk, userFactor, ratingFactor, total, Level(total),
      hosts, permissions.risky,
      Flags(externallyConnectable, contentScripts, HasKey(m, "web_accessible_resources")),
      userCount, rating, reviews, externallyConnectable, contentScripts))
  }

  /** The total of a manifest whose steps all succeed, from its parts: twice the
      permission and host risks (they are in points) plus the two factors of the
      metadata, with the defaults for missing fields. */
  lemma ScoreManifestTotal(m: Manifest, md: Metadata, parseFloat: string -> Option<real>,
                           hosts: seq<Json>, names: seq<string>, hostRisk: nat)
    requires ExtractHostPermissions(m) == Some(hosts) && PermissionNames(m) == Some(names)
    requires HostRisk(hosts) == Some(hostRisk) && HasContentScripts(m).Some?
    ensures ScoreManifest(m, md, parseFloat).Some?
    ensures ScoreManifest(m, md, parseFloat).value.totalRisk ==
              2 * ScorePermissions(names).total + 2 * hostRisk
              + UserFactorOfCount(md.userCount.GetOr(0))
              + RatingCascade(md.rating.GetOr(5.0), md.ratingCount.GetOr(0))
  {
  }

  // ------------------------------------------------------- reading the file

  /** Drop one leading byte-order mark, if there is one. */
  function DropBom(s: string): (r: string)
    ensures |s| > 0 && s[0] == Bom ==> r == s[1..]
    ensures !(|s| > 0 && s[0] == Bom) ==> r == s
  {
    if |s| > 0 && s[0] == Bom then s[1..] else s
  }

  /** The metadata and manifest texts of an (already stripped) file: with `---` in
      it, the second and third `---`-separated pieces, stripped, and failure when
      there are only two pieces; without `---`, no metadata and the whole text. */
  function Segments(content: string): (r: Option<(string, string)>)
    ensures !Contains(content, "---") ==> r == Some(("", content))
    ensures r.None? <==> |Split(content, "---")| == 2
    ensures |Split(content, "---")| >= 3 ==>
              var parts := Split(content, "---");
              r == Some((Strip(parts[1], Whitespace), Strip(parts[2], Whitespace)))
  {
    var parts := Split(content, "---");
    if |parts| >= 3 then Some((Strip(parts[1], Whitespace), Strip(parts[2], Whitespace)))
    else if |parts| == 2 then None
    else Some(("", content))
  }

  /** The usual front-matter layout `---META---JSON` selects the metadata and the
      manifest, both stripped. */
  lemma FrontMatterSegments(meta: string, json: string)
    requires !Contains(meta, "---") && !Contains(json, "---") && !EndsWith(meta, "-")
    ensures Segments("---" + meta + "---" + json) == Some((Strip(meta, Whitespace), Strip(json, Whitespace)))
  {
    NoDashTail(meta);
    SplitAfterFirst(meta, "---", json);
    SplitAfterFirst("", "---", meta + "---" + json);
    assert "" + "---" + (meta + "---" + json) == "---" + meta + "---" + json;
    assert Split(json, "---") == [json] by {
      var r := Split(json, "---");
      assert |r| == 1 && Join(r, "---") == r[0];
    }
  }

  /** A text that does not end in `-` has no tail that starts `---`. */
  lemma NoDashTail(meta: string)
    requires !EndsWith(meta, "-")
    ensures forall k :: 0 < k < |"---"| && k <= |meta| ==> meta[|meta| - k..] != "---"[..k]
  {
    var n := |meta|;
    if n > 0 {
      assert meta[n - 1..] == [meta[n - 1]];
      assert meta[n - 1] != '-';
    }
    forall k | 0 < k < |"---"| && k <= n
      ensures meta[n - k..] != "---"[..k]
    {
      assert meta[n - k..][k - 1] == meta[n - 1];
      assert "---"[..k][k - 1] == '-';
    }
  }

  /** A text with a single `---` is metadata without a manifest: no segments. */
  lemma MetadataOnlyFails(meta: string, rest: string)
    requires !Contains(meta, "---") && !Contains(rest, "---") && !EndsWith(meta, "-")
    ensures Segments(meta + "---" + rest) == None
  {
    NoDashTail(meta);
    SplitAfterFirst(meta, "---", rest);
    assert Split(rest, "---") == [rest] by {
      var r := Split(rest, "---");
      assert |r| == 1 && Join(r, "---") == r[0];
    }
  }

  /** The manifest text has the shape of a JSON object: non-empty, `{` first and
      `}` last. */
  predicate ObjectShaped(t: string) {
    t != [] && StartsWith(t, "{") && EndsWith(t, "}")
  }

  /** The manifest text handed to the JSON decoder, or `None` when the file is
      rejected before decoding: empty after stripping, only two `---` pieces, an
      empty manifest piece, or a manifest not shaped like an object. */
  function ManifestText(content: string): (r: Option<(string, string)>)
    ensures r.Some? ==> ObjectShaped(r.value.1)
    ensures Strip(DropBom(content), Whitespace) == [] ==> r.None?
    ensures var stripped := Strip(DropBom(content), Whitespace);
      stripped != [] && Segments(DropBom(stripped)).None? ==> r.None?
    ensures var stripped := Strip(DropBom(content), Whitespace);
      stripped != [] && Segments(DropBom(stripped)).Some? ==>
        var (meta, manifest) := Segments(DropBom(stripped)).value;
        var t := DropBom(Strip(manifest, Whitespace));
        r == (if ObjectShaped(t) then Some((meta, t)) else None)
  {
    var stripped := Strip(DropBom(content), Whitespace);
    if stripped == [] then None
    else
      var (meta, manifest) :- Segments(DropBom(stripped));
      if Strip(manifest, Whitespace) == [] then None
      else
        var t := DropBom(Strip(manifest, Whitespace));
        if ObjectShaped(t) then Some((meta, t)) else None
  }

  /** A bare manifest, without `---` and already shaped like an object, reaches
      the decoder unchanged, with no metadata. */
  lemma PlainManifestText(json: string)
    requires ObjectShaped(json) && !Contains(json, "---")
    ensures ManifestText(json) == Some(("", json))
  {
    ShapedUnchanged(json);
  }

  /** The front-matter layout `---META---JSON` hands the decoder the manifest
      unchanged and the metadata reader the stripped metadata. */
  lemma FrontMatterManifestText(meta: string, json: string)
    requires !Contains(meta, "---") && !Contains(json, "---") && !EndsWith(meta, "-")
    requires ObjectShaped(json)
    ensures ManifestText("---" + meta + "---" + json) == Some((Strip(meta, Whitespace), json))
  {
    var content := "---" + meta + "---" + json;
    assert content[0] == '-';
    assert content[|content| - 1] == json[|json| - 1];
    StripUnchanged(content, Whitespace);
    FrontMatterSegments(meta, json);
    ShapedUnchanged(json);
  }

  /** An object-shaped text survives stripping and the byte-order-mark cleanup. */
  lemma ShapedUnchanged(t: string)
    requires ObjectShaped(t)
    ensures DropBom(t) == t && Strip(t, Whitespace) == t
  {
    assert t[0] == '{' && t[|t| - 1] == '}';
    StripUnchanged(t, Whitespace);
  }

  /** `calculate_total_risk` on the text of a file (decoded as UTF-8; `utf-8-sig`
      drops a leading byte-order mark; text mode turns every line break into
      `\n`), given the JSON decoder and the float parser. */
  function Score(content: string, decode: string -> Option<Json>, parseFloat: string -> Option<real>): (r: Assessment)
    ensures r.breakdown.None? ==> r == Failed
    ensures r.breakdown.Some? ==> r.score == r.breakdown.value.totalRisk && Consistent(r.breakdown.value)
    ensures ManifestText(TranslateNewlines(content)).None? ==> r == Failed
    ensures ManifestText(TranslateNewlines(content)).Some? ==>
              var (meta, t) := ManifestText(TranslateNewlines(content)).value;
              && (decode(t).None? || !decode(t).value.JObject? ==> r == Failed)
              && (decode(t).Some? && decode(t).value.JObject? ==>
                    var b := ScoreManifest(decode(t).value.members, ParseSimpleMetadata(meta, parseFloat), parseFloat);
                    r == (if b.None? then Failed else Assessment(b.value.totalRisk, b)))
  {
    match ManifestText(TranslateNewlines(content))
    case None => Failed
    case Some((meta, t)) =>
      match decode(t)
      case Some(JObject(members)) =>
        (match ScoreManifest(members, ParseSimpleMetadata(meta, parseFloat), parseFloat)
         case None => Failed
         case Some(b) => Assessment(b.totalRisk, Some(b)))
      case _ => Failed
  }

  /** The score does not depend on the line-break convention of the file:
      translating the line breaks first changes nothing. */
  lemma ScoreIgnoresLineBreakStyle(content: string, decode: string -> Option<Json>, parseFloat: string -> Option<real>)
    ensures Score(TranslateNewlines(content), decode, parseFloat) == Score(content, decode, parseFloat)
  {
    TranslateNoCr(TranslateNewlines(content));
  }

  // --------------------------------------------------------------- examples

  /** A manifest with no permissions and no metadata still scores 1 point (Low):
      the missing review count is below 10, which costs +1.0. */
  lemma BareManifestScoresOnePoint(parseFloat: string -> Option<real>)
    ensures ScoreManifest([], Empty, parseFloat).Some?
    ensures ScoreManifest([], Empty, parseFloat).value.totalRisk == 2
    ensures ScoreManifest([], Empty, parseFloat).value.level == Low
  {
    var m: Manifest := [];
    assert !HasKey(m, "permissions") && !HasKey(m, "host_permissions");
    assert !HasKey(m, "optional_permissions") && !HasKey(m, "content_scripts");
    assert Filter(IsHostPattern, []) == [];
    assert Filter(NotUrl, []) == [];
  }

  /** A manifest asking for `tabs` and `cookies` and every host. */
  const SampleManifest: Manifest := [
    ("permissions", JArray([JString("tabs"), JString("cookies")])),
    ("host_permissions", JArray([JString("<all_urls>")]))
  ]

  /** Two million users, rating 4.8 over 5000 reviews. */
  const SampleMetadata := Metadata(Some(2000000), Some(4.8), Some(5000))

  /** The sample scores 8 + 9 for its permissions, 10 for `<all_urls>`, +2.0 for
      its users and -1.5 for its rating: 27.5 points, Critical. */
  lemma SampleScore(parseFloat: string -> Option<real>)
    ensures ScoreManifest(SampleManifest, SampleMetadata, parseFloat).Some?
    ensures ScoreManifest(SampleManifest, SampleMetadata, parseFloat).value.totalRisk == 55
    ensures ScoreManifest(SampleManifest, SampleMetadata, parseFloat).value.level == Critical
  {
    SampleHosts();
    SampleNames();
    SampleNoContentScripts();
    SampleWeights();
    SampleHostRisk();
    ScoreManifestTotal(SampleManifest, SampleMetadata, parseFloat,
                       [JString("<all_urls>")], ["tabs", "cookies"], 10);
    assert UserFactorOfCount(2000000) == 4;
    assert RatingCascade(4.8, 5000) == -3;
  }

  lemma SampleHosts()
    ensures ExtractHostPermissions(SampleManifest) == Some([JString("<all_urls>")])
  {
    SampleFields();
    SampleHostFilter();
    var none: seq<Json> := [];
    assert none + [JString("<all_urls>")] == [JString("<all_urls>")];
  }

  lemma SampleNames()
    ensures PermissionNames(SampleManifest) == Some(["tabs", "cookies"])
  {
    SampleFields();
    SampleNameFilter();
  }

  lemma SampleNoContentScripts()
    ensures HasContentScripts(SampleManifest) == Some(false)
  {
    SampleFields();
  }

  lemma SampleFields()
    ensures FieldEntries(SampleManifest, "permissions") == Some([JString("tabs"), JString("cookies")])
    ensures FieldEntries(SampleManifest, "host_permissions") == Some([JString("<all_urls>")])
    ensures FieldEntries(SampleManifest, "optional_permissions") == Some([])
    ensures !HasKey(SampleManifest, "content_scripts")
  {
    var m := SampleManifest;
    assert m[0].0 == "permissions" && m[1].0 == "host_permissions";
    assert HasKey(m, "permissions") && HasKey(m, "host_permissions");
  }

  lemma SampleHostFilter()
    ensures Filter(IsHostPattern, [JString("tabs"), JString("cookies")]) == []
  {
    var perms := [JString("tabs"), JString("cookies")];
    NotHostPattern("tabs");
    NotHostPattern("cookies");
    assert perms[1..] == [JString("cookies")];
  }

  lemma SampleNameFilter()
    ensures Filter(NotUrl, StringEntries([JString("tabs"), JString("cookies")])) + StringEntries([])
            == ["tabs", "cookies"]
  {
    var perms := [JString("tabs"), JString("cookies")];
    assert perms[1..] == [JString("cookies")];
    assert StringEntries(perms) == ["tabs", "cookies"];
    NoColonNoUrl("tabs");
    NoColonNoUrl("cookies");
    assert ["tabs", "cookies"][1..] == ["cookies"];
  }

  lemma SampleWeights()
    ensures ScorePermissions(["tabs", "cookies"]).total == 17
  {
    assert "tabs" in PermissionWeights.Weight8;
    assert "cookies" in PermissionWeights.Weight9;
    assert ["tabs", "cookies"][1..] == ["cookies"];
  }

  lemma SampleHostRisk()
    ensures HostRisk([JString("<all_urls>")]) == Some(10)
  {
    assert "<all_urls>" in UniversalPatterns;
    assert [JString("<all_urls>")][1..] == [];
  }
}
