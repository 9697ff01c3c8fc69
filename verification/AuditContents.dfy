/**
 What iter_vulns finds in an audit report (tools/check_pnpm_audit_exceptions.py), in the
 report's own terms: which field each part of a finding comes from, and in which order the
 alternatives are tried.
 */
module AuditContents {
  import opened Common
  import opened AuditVerdict
  import opened AuditFindings

  // ---------- the fields of an object ----------

  /** No two fields of an object have one name. */
  ghost predicate DistinctFields(fields: seq<(string, Json)>) {
    forall i, j :: 0 <= i < j < |fields| ==> fields[i].0 != fields[j].0
  }

  /** The value stored under a name is what a lookup gives. */
  lemma {:induction false} GetStored(fields: seq<(string, Json)>, i: int)
    requires DistinctFields(fields) && 0 <= i < |fields|
    ensures Get(fields, fields[i].0) == fields[i].1
  {
    if i == 0 {
    } else {
      assert fields[1..][i - 1] == fields[i];
      GetStored(fields[1..], i - 1);
    }
  }

  /** A name that no field has gives null. */
  lemma {:induction false} GetMissing(fields: seq<(string, Json)>, key: string)
    requires forall i :: 0 <= i < |fields| ==> fields[i].0 != key
    ensures Get(fields, key) == JNull
  {
    if fields == [] {
    } else {
      GetMissing(fields[1..], key);
    }
  }

  // ---------- values ----------

  /** Only null, false, zero and what is empty are not true. */
  lemma WhatIsTrue(j: Json)
    ensures !IsTrue(j) <==>
      j in {JNull, JBool(false), JString(""), JArray([]), JObject([])} || (j.JNumber? && j.zero)
  {
  }

  /** What the gate keeps of a value: null, a string, or the text of any other value and whether it is true. */
  lemma WhatIsKept(str: Json -> string, j: Json)
    ensures ToScalar(str, j) == Null <==> j == JNull
    ensures forall s :: ToScalar(str, j) == Text(s) <==> j == JString(s)
    ensures forall s, truthy ::
      ToScalar(str, j) == Scalar.Other(s, truthy) <==>
      j != JNull && !j.JString? && s == str(j) && (truthy <==> IsTrue(j))
  {
  }

  // ---------- alternatives ----------

  ghost predicate IsFirstTrue(c: seq<Json>, i: int) {
    0 <= i < |c| && IsTrue(c[i]) && forall k :: 0 <= k < i ==> !IsTrue(c[k])
  }

  /** The value of `c[0] or c[1] or ...`: the first that is true, and the last when none is. */
  ghost predicate IsOr(c: seq<Json>, r: Json) {
    && c != []
    && ((exists i :: IsFirstTrue(c, i) && r == c[i])
        || ((forall k :: 0 <= k < |c| ==> !IsTrue(c[k])) && r == c[|c| - 1]))
  }

  lemma OneAlternative(x: Json)
    ensures IsOr([x], x)
  {
    assert IsTrue(x) ==> IsFirstTrue([x], 0);
  }

  lemma FirstTrueAfter(x: Json, c: seq<Json>, i: int)
    requires !IsTrue(x) && IsFirstTrue(c, i)
    ensures IsFirstTrue([x] + c, i + 1)
  {
    hide IsTrue;
    forall k | 0 <= k < i + 1 ensures !IsTrue(([x] + c)[k]) {
      assert ([x] + c)[k] == if k == 0 then x else c[k - 1];
    }
  }

  /** One more alternative in front. */
  lemma OrElse(x: Json, c: seq<Json>, r: Json)
    requires IsOr(c, r)
    ensures IsOr([x] + c, if IsTrue(x) then x else r)
  {
    hide IsTrue;
    var all := [x] + c;
    if IsTrue(x) {
      assert IsFirstTrue(all, 0);
    } else if i :| IsFirstTrue(c, i) && r == c[i] {
      FirstTrueAfter(x, c, i);
      hide IsFirstTrue;
      assert IsFirstTrue(all, i + 1) && r == all[i + 1];
    } else {
      assert forall k :: 0 <= k < |all| ==> all[k] == if k == 0 then x else c[k - 1];
    }
  }

  function OrAll(c: seq<Json>): Json
    requires c != []
  {
    if |c| == 1 then c[0] else Either(c[0], OrAll(c[1..]))
  }

  lemma {:induction false} OrAllIs(c: seq<Json>)
    requires c != []
    ensures IsOr(c, OrAll(c))
  {
    hide IsOr, IsTrue;
    if |c| == 1 {
      OneAlternative(c[0]);
      assert c == [c[0]];
    } else {
      OrAllIs(c[1..]);
      OrElse(c[0], c[1..], OrAll(c[1..]));
      assert c == [c[0]] + c[1..];
    }
  }

  lemma SevenAlternatives(c: seq<Json>)
    requires |c| == 7
    ensures OrAll(c) == Either(c[0], Either(c[1], Either(c[2], Either(c[3], Either(c[4], Either(c[5], c[6]))))))
  {
    hide Either;
    var c1, c2, c3, c4, c5 := c[1..], c[2..], c[3..], c[4..], c[5..];
    assert c[1..] == c1 && c1[1..] == c2 && c2[1..] == c3 && c3[1..] == c4 && c4[1..] == c5 && c5[1..] == [c[6]];
    assert OrAll(c5) == Either(c[5], c[6]);
    assert OrAll(c4) == Either(c[4], OrAll(c5)) && OrAll(c3) == Either(c[3], OrAll(c4));
    assert OrAll(c2) == Either(c[2], OrAll(c3)) && OrAll(c1) == Either(c[1], OrAll(c2));
  }

  // ---------- advisories ----------

  /** The first CVE: null when there is none, and nothing when the value has no item 0. */
  ghost predicate IsFirstCVE(cves: Json, cve: Json) {
    if !IsTrue(cves) then cve == JNull
    else (cves.JArray? && cve == cves.items[0]) || (cves.JString? && cve == JString([cves.s[0]]))
  }

  /** A true value without an item 0. */
  predicate NoFirst(cves: Json) {
    IsTrue(cves) && !cves.JArray? && !cves.JString?
  }

  /** The id as text: null when there is none. */
  predicate IsIDText(str: Json -> string, id: Json, text: Json) {
    if id.JNull? then text == JNull else if id.JString? then text == id else text == JString(str(id))
  }

  /** What is tried for the advisory's id, in order. */
  ghost predicate AdvisoryChoices(str: Json -> string, a: seq<(string, Json)>, c: seq<Json>) {
    && |c| == 7 && c[0] == Get(a, "github_advisory_id") && c[1] == Get(a, "url") && IsFirstCVE(Get(a, "cves"), c[2])
    && IsIDText(str, Get(a, "id"), c[3]) && c[4] == Get(a, "title") && c[5] == Get(a, "advisory")
    && c[6] == Get(a, "overview")
  }

  /** The advisory's id: a GitHub id or a URL, and otherwise the first true one of all the choices. */
  ghost predicate IsAdvisoryID(str: Json -> string, a: seq<(string, Json)>, id: Json) {
    if IsTrue(Get(a, "github_advisory_id")) then id == Get(a, "github_advisory_id")
    else if IsTrue(Get(a, "url")) then id == Get(a, "url")
    else exists c :: AdvisoryChoices(str, a, c) && IsOr(c, id)
  }

  /** The finding of one advisory. */
  ghost predicate IsAdvisoryFinding(str: Json -> string, a: seq<(string, Json)>, f: Finding) {
    && (exists name :: IsOr([Get(a, "module_name"), Get(a, "name")], name) && f.name == ToScalar(str, name))
    && f.severity == ToScalar(str, Get(a, "severity"))
    && (exists id :: IsAdvisoryID(str, a, id) && f.advisory == ToScalar(str, id))
  }

  /** The advisory is no object, or its ids come down to a list of CVEs that is no list. */
  predicate AdvisoryRaisesOn(advisory: Json) {
    || !advisory.JObject?
    || (!IsTrue(Get(advisory.fields, "github_advisory_id")) && !IsTrue(Get(advisory.fields, "url"))
        && NoFirst(Get(advisory.fields, "cves")))
  }

  lemma CVEIsFirst(cves: Json)
    ensures FirstCVE(cves).None? <==> NoFirst(cves)
    ensures FirstCVE(cves).Some? ==> IsFirstCVE(cves, FirstCVE(cves).value)
  {
  }

  lemma TextOfID(str: Json -> string, id: Json)
    ensures IsIDText(str, id, IDText(str, id))
  {
  }

  lemma PickedID(str: Json -> string, a: seq<(string, Json)>)
    ensures PickAdvisoryID(str, a).None? <==> AdvisoryRaisesOn(JObject(a))
    ensures PickAdvisoryID(str, a).Some? ==> IsAdvisoryID(str, a, PickAdvisoryID(str, a).value)
  {
    hide Get, IsTrue, IsOr, FirstCVE, NoFirst, IsFirstCVE, IDText, IsIDText;
    CVEIsFirst(Get(a, "cves"));
    if FirstCVE(Get(a, "cves")).Some? {
      var cve, text := FirstCVE(Get(a, "cves")).value, IDText(str, Get(a, "id"));
      var c := [Get(a, "github_advisory_id"), Get(a, "url"), cve, text, Get(a, "title"), Get(a, "advisory"),
                Get(a, "overview")];
      TextOfID(str, Get(a, "id"));
      OrAllIs(c);
      SevenAlternatives(c);
      assert AdvisoryChoices(str, a, c);
    }
  }

  /** Each advisory gives its finding, or raises. */
  lemma AdvisoryDescribed(str: Json -> string, advisory: Json)
    ensures AdvisoryFinding(str, advisory).None? <==> AdvisoryRaisesOn(advisory)
    ensures AdvisoryFinding(str, advisory).Some? ==>
      advisory.JObject? && IsAdvisoryFinding(str, advisory.fields, AdvisoryFinding(str, advisory).value)
  {
    hide Get, IsTrue, PickAdvisoryID, IsAdvisoryID;
    if advisory.JObject? {
      var a := advisory.fields;
      PickedID(str, a);
      OneAlternative(Get(a, "name"));
      OrElse(Get(a, "module_name"), [Get(a, "name")], Get(a, "name"));
      assert [Get(a, "module_name")] + [Get(a, "name")] == [Get(a, "module_name"), Get(a, "name")];
      hide IsOr;
      assert IsOr([Get(a, "module_name"), Get(a, "name")], Either(Get(a, "module_name"), Get(a, "name")));
    }
  }

  /** All advisories, in order. */
  ghost predicate AreAdvisories(str: Json -> string, advisories: seq<(string, Json)>, fs: seq<Finding>) {
    && |fs| == |advisories|
    && forall i :: 0 <= i < |fs| ==>
      advisories[i].1.JObject? && IsAdvisoryFinding(str, advisories[i].1.fields, fs[i])
  }

  lemma {:induction false} AdvisoriesDescribed(str: Json -> string, advisories: seq<(string, Json)>)
    ensures
      var fs := AdvisoryFindings(str, advisories);
      && (fs.None? <==> exists i :: 0 <= i < |advisories| && AdvisoryRaisesOn(advisories[i].1))
      && (fs.Some? ==> AreAdvisories(str, advisories, fs.value))
  {
    hide AdvisoryRaisesOn, IsAdvisoryFinding, AdvisoryFinding;
    if advisories == [] {
    } else {
      var n := |advisories| - 1;
      AdvisoriesDescribed(str, advisories[..n]);
      AdvisoryDescribed(str, advisories[n].1);
      assert forall i :: 0 <= i < n ==> advisories[..n][i] == advisories[i];
    }
  }

  // ---------- vulnerabilities ----------

  /** The id that an item of `via` offers. */
  ghost predicate Offers(item: Json, id: Json) {
    if item.JString? then id == item
    else if item.JObject? then
      IsOr([Get(item.fields, "github_advisory_id"), Get(item.fields, "url"), Get(item.fields, "source"),
            Get(item.fields, "title"), Get(item.fields, "name")], id)
    else id == JNull
  }

  lemma FiveAlternatives(c: seq<Json>)
    requires |c| == 5
    ensures OrAll(c) == Either(c[0], Either(c[1], Either(c[2], Either(c[3], c[4]))))
  {
    hide Either;
    var c1, c2, c3 := c[1..], c[2..], c[3..];
    assert c[1..] == c1 && c1[1..] == c2 && c2[1..] == c3 && c3[1..] == [c[4]];
    assert OrAll(c3) == Either(c[3], c[4]) && OrAll(c2) == Either(c[2], OrAll(c3));
    assert OrAll(c1) == Either(c[1], OrAll(c2));
  }

  lemma OfferedID(item: Json)
    ensures Offers(item, ViaID(item))
  {
    hide Get, IsTrue, IsOr;
    if item.JObject? {
      var f := item.fields;
      var c := [Get(f, "github_advisory_id"), Get(f, "url"), Get(f, "source"), Get(f, "title"), Get(f, "name")];
      OrAllIs(c);
      FiveAlternatives(c);
    }
  }

  /** The title of an item of `via`, for what the join does with it. */
  ghost predicate HasTitle(item: Json, title: Json) {
    if item.JString? then title == item
    else if item.JObject? then
      IsOr([Get(item.fields, "title"), Get(item.fields, "url"), Get(item.fields, "advisory"),
            Get(item.fields, "source")], title)
    else title == JNull
  }

  lemma FourAlternatives(c: seq<Json>)
    requires |c| == 4
    ensures OrAll(c) == Either(c[0], Either(c[1], Either(c[2], c[3])))
  {
    hide Either;
    var c1, c2 := c[1..], c[2..];
    assert c[1..] == c1 && c1[1..] == c2 && c2[1..] == [c[3]];
    assert OrAll(c2) == Either(c[2], c[3]) && OrAll(c1) == Either(c[1], OrAll(c2));
  }

  lemma TitleOf(item: Json)
    ensures HasTitle(item, ViaTitle(item))
  {
    hide Get, IsTrue, IsOr;
    if item.JObject? {
      var f := item.fields;
      var c := [Get(f, "title"), Get(f, "url"), Get(f, "advisory"), Get(f, "source")];
      OrAllIs(c);
      FourAlternatives(c);
    }
  }

  /** The items that `via` lists: a string stands for itself, and anything else for none. */
  ghost predicate AreItems(via: Json, items: seq<Json>) {
    items == if via.JArray? then via.items else if via.JString? then [via] else []
  }

  /** The item offers a true id. */
  ghost predicate OffersID(item: Json) {
    exists id :: Offers(item, id) && IsTrue(id)
  }

  /** The finding of one item: it names the vulnerability, and has its severity and the item's id. */
  ghost predicate IsItemFinding(str: Json -> string, name: string, severity: Scalar, item: Json, f: Finding) {
    exists id :: Offers(item, id) && IsTrue(id) && f == Finding(Text(name), severity, ToScalar(str, id))
  }

  /** One finding for each item that offers an id, in the order of the items. */
  ghost predicate AreItemFindings(
    str: Json -> string, name: string, severity: Scalar, items: seq<Json>, fs: seq<Finding>, at: seq<int>)
  {
    && Increasing(at) && |at| == |fs|
    && (forall j :: j in at <==> 0 <= j < |items| && OffersID(items[j]))
    && forall k :: 0 <= k < |at| ==> 0 <= at[k] < |items| && IsItemFinding(str, name, severity, items[at[k]], fs[k])
  }

  lemma OrIsOne(c: seq<Json>, a: Json, b: Json)
    requires IsOr(c, a) && IsOr(c, b)
    ensures a == b
  {
    hide IsTrue;
    if i :| IsFirstTrue(c, i) && a == c[i] {
      if j :| IsFirstTrue(c, j) && b == c[j] {
        assert i == j;
      }
    }
  }

  lemma OneID(item: Json, id: Json)
    requires Offers(item, id)
    ensures id == ViaID(item)
  {
    OfferedID(item);
    hide Get, ViaID;
    if item.JObject? {
      OrIsOne([Get(item.fields, "github_advisory_id"), Get(item.fields, "url"), Get(item.fields, "source"),
               Get(item.fields, "title"), Get(item.fields, "name")], id, ViaID(item));
    }
  }

  lemma OffersIff(item: Json)
    ensures OffersID(item) <==> IsTrue(ViaID(item))
  {
    hide Offers, ViaID, IsTrue;
    OfferedID(item);
    if OffersID(item) {
      var id :| Offers(item, id) && IsTrue(id);
      OneID(item, id);
    }
  }

  lemma ItemDescribed(str: Json -> string, name: string, severity: Scalar, item: Json)
    requires IsTrue(ViaID(item))
    ensures IsItemFinding(str, name, severity, item, Finding(Text(name), severity, ToScalar(str, ViaID(item))))
  {
    OfferedID(item);
  }

  /** One more item, which offers an id. */
  lemma OneMoreItem(
    str: Json -> string, name: string, severity: Scalar, items: seq<Json>, fs: seq<Finding>, at: seq<int>, item: Json,
    f: Finding)
    requires AreItemFindings(str, name, severity, items, fs, at)
    requires OffersID(item) && IsItemFinding(str, name, severity, item, f)
    ensures AreItemFindings(str, name, severity, items + [item], fs + [f], at + [|items|])
  {
    hide OffersID, IsItemFinding;
    var more := at + [|items|];
    forall j ensures j in more <==> 0 <= j < |items + [item]| && OffersID((items + [item])[j]) {
      assert j in more <==> j in at || j == |items|;
    }
  }

  /** One more item, which offers none. */
  lemma ItemWithoutID(
    str: Json -> string, name: string, severity: Scalar, items: seq<Json>, fs: seq<Finding>, at: seq<int>, item: Json)
    requires AreItemFindings(str, name, severity, items, fs, at) && !OffersID(item)
    ensures AreItemFindings(str, name, severity, items + [item], fs, at)
  {
    hide OffersID, IsItemFinding;
  }

  lemma {:induction false} ItemsDescribed(str: Json -> string, name: string, severity: Scalar, items: seq<Json>)
    returns (at: seq<int>)
    ensures AreItemFindings(str, name, severity, items, ViaFindings(str, name, severity, items), at)
  {
    hide Offers, OffersID, IsTrue, ViaID, ToScalar, IsItemFinding;
    if items == [] {
      at := [];
    } else {
      var n := |items| - 1;
      var init, last := items[..n], items[n];
      at := ItemsDescribed(str, name, severity, init);
      OffersIff(last);
      hide AreItemFindings;
      assert items == init + [last];
      if IsTrue(ViaID(last)) {
        ItemDescribed(str, name, severity, last);
        OneMoreItem(
          str, name, severity, init, ViaFindings(str, name, severity, init), at, last,
          Finding(Text(name), severity, ToScalar(str, ViaID(last))));
        at := at + [n];
      } else {
        ItemWithoutID(str, name, severity, init, ViaFindings(str, name, severity, init), at, last);
      }
    }
  }

  // ---------- the whole report ----------

  /** An item with a true title that is no text, which the join cannot take. */
  ghost predicate BadTitle(item: Json) {
    exists t :: HasTitle(item, t) && IsTrue(t) && !t.JString?
  }

  /** The vulnerability is no object, or has a title that is no text. */
  ghost predicate VulnRaisesOn(vuln: Json) {
    || !vuln.JObject?
    || exists items :: AreItems(Get(vuln.fields, "via"), items) && exists i :: 0 <= i < |items| && BadTitle(items[i])
  }

  /** The findings of one vulnerability. */
  ghost predicate AreVulnFindings(str: Json -> string, name: string, vuln: Json, fs: seq<Finding>) {
    && vuln.JObject?
    && exists items, at ::
      && AreItems(Get(vuln.fields, "via"), items)
      && AreItemFindings(str, name, ToScalar(str, Get(vuln.fields, "severity")), items, fs, at)
  }

  lemma TitleBad(item: Json)
    ensures BadTitle(item) <==> IsTrue(ViaTitle(item)) && !ViaTitle(item).JString?
  {
    hide Get, ViaTitle, IsTrue;
    TitleOf(item);
    if BadTitle(item) {
      var t :| HasTitle(item, t) && IsTrue(t) && !t.JString?;
      if item.JObject? {
        OrIsOne([Get(item.fields, "title"), Get(item.fields, "url"), Get(item.fields, "advisory"),
                 Get(item.fields, "source")], t, ViaTitle(item));
      }
    }
  }

  lemma VulnDescribed(str: Json -> string, name: string, vuln: Json)
    ensures VulnFindings(str, name, vuln).None? <==> VulnRaisesOn(vuln)
    ensures VulnFindings(str, name, vuln).Some? ==>
      AreVulnFindings(str, name, vuln, VulnFindings(str, name, vuln).value)
  {
    hide Get, ViaTitle, IsTrue, BadTitle, ViaFindings, AreItemFindings, ToScalar;
    if vuln.JObject? {
      var items := ViaOf(vuln.fields);
      assert AreItems(Get(vuln.fields, "via"), items);
      forall i | 0 <= i < |items|
        ensures BadTitle(items[i]) <==> IsTrue(ViaTitle(items[i])) && !ViaTitle(items[i]).JString?
      {
        TitleBad(items[i]);
      }
      var at := ItemsDescribed(str, name, ToScalar(str, Get(vuln.fields, "severity")), items);
    }
  }

  function Flat(parts: seq<seq<Finding>>): seq<Finding> {
    if parts == [] then [] else Flat(parts[..|parts| - 1]) + parts[|parts| - 1]
  }

  /** The findings of all vulnerabilities, in order. */
  ghost predicate AreVulns(str: Json -> string, vulns: seq<(string, Json)>, parts: seq<seq<Finding>>) {
    && |parts| == |vulns|
    && forall i :: 0 <= i < |parts| ==> AreVulnFindings(str, vulns[i].0, vulns[i].1, parts[i])
  }

  lemma {:induction false} VulnsDescribed(str: Json -> string, vulns: seq<(string, Json)>)
    returns (parts: seq<seq<Finding>>)
    ensures
      var fs := AllVulnFindings(str, vulns);
      && (fs.None? <==> exists i :: 0 <= i < |vulns| && VulnRaisesOn(vulns[i].1))
      && (fs.Some? ==> AreVulns(str, vulns, parts) && fs.value == Flat(parts))
  {
    hide VulnRaisesOn, AreVulnFindings, VulnFindings;
    if vulns == [] {
      parts := [];
    } else {
      var n := |vulns| - 1;
      parts := VulnsDescribed(str, vulns[..n]);
      VulnDescribed(str, vulns[n].0, vulns[n].1);
      assert forall i :: 0 <= i < n ==> vulns[..n][i] == vulns[i];
      if AllVulnFindings(str, vulns).Some? {
        var last := VulnFindings(str, vulns[n].0, vulns[n].1).value;
        assert (parts + [last])[..n] == parts;
        parts := parts + [last];
      }
    }
  }

  /** The findings of a report: those of its advisories, one each, and then those of its vulnerabilities. */
  ghost predicate IsReport(str: Json -> string, data: Json, fs: seq<Finding>) {
    && data.JObject?
    && exists advisories, parts ::
      && AreAdvisories(str, FieldsOf(Get(data.fields, "advisories")), advisories)
      && AreVulns(str, FieldsOf(Get(data.fields, "vulnerabilities")), parts) && fs == advisories + Flat(parts)
  }

  predicate AdvisoryRaisesAt(advisories: seq<(string, Json)>, i: int) {
    0 <= i < |advisories| && AdvisoryRaisesOn(advisories[i].1)
  }

  ghost predicate VulnRaisesAt(vulns: seq<(string, Json)>, i: int) {
    0 <= i < |vulns| && VulnRaisesOn(vulns[i].1)
  }

  /** The report is no object, or some entry of it raises. */
  ghost predicate ReportRaises(data: Json) {
    || !data.JObject?
    || (exists i :: AdvisoryRaisesAt(FieldsOf(Get(data.fields, "advisories")), i))
    || (exists i :: VulnRaisesAt(FieldsOf(Get(data.fields, "vulnerabilities")), i))
  }

  /** What iter_vulns yields for a report. */
  lemma FindingsDescribed(str: Json -> string, data: Json)
    ensures Findings(str, data).None? <==> ReportRaises(data)
    ensures Findings(str, data).Some? ==> IsReport(str, data, Findings(str, data).value)
  {
    hide Get, FieldsOf, AdvisoryFindings, AllVulnFindings, AreAdvisories, AreVulns, AdvisoryRaisesOn, VulnRaisesOn;
    if data.JObject? {
      var advisories, vulns := FieldsOf(Get(data.fields, "advisories")), FieldsOf(Get(data.fields, "vulnerabilities"));
      AdvisoriesDescribed(str, advisories);
      var parts := VulnsDescribed(str, vulns);
      if exists i :: 0 <= i < |advisories| && AdvisoryRaisesOn(advisories[i].1) {
        var i :| 0 <= i < |advisories| && AdvisoryRaisesOn(advisories[i].1);
        assert AdvisoryRaisesAt(advisories, i);
      }
      if exists i :: 0 <= i < |vulns| && VulnRaisesOn(vulns[i].1) {
        var i :| 0 <= i < |vulns| && VulnRaisesOn(vulns[i].1);
        assert VulnRaisesAt(vulns, i);
      }
    }
  }

  // ---------- the report determines the findings ----------

  lemma OneCVE(cves: Json, a: Json, b: Json)
    requires IsFirstCVE(cves, a) && IsFirstCVE(cves, b)
    ensures a == b
  {
    hide IsTrue;
  }

  lemma OneAdvisoryID(str: Json -> string, a: seq<(string, Json)>, x: Json, y: Json)
    requires IsAdvisoryID(str, a, x) && IsAdvisoryID(str, a, y)
    ensures x == y
  {
    hide Get, IsTrue, IsOr, IsFirstCVE;
    if !IsTrue(Get(a, "github_advisory_id")) && !IsTrue(Get(a, "url")) {
      var c :| AdvisoryChoices(str, a, c) && IsOr(c, x);
      var d :| AdvisoryChoices(str, a, d) && IsOr(d, y);
      OneCVE(Get(a, "cves"), c[2], d[2]);
      assert c == d;
      OrIsOne(c, x, y);
    }
  }

  lemma OneAdvisoryFinding(str: Json -> string, a: seq<(string, Json)>, f: Finding, g: Finding)
    requires IsAdvisoryFinding(str, a, f) && IsAdvisoryFinding(str, a, g)
    ensures f == g
  {
    hide Get, IsTrue, IsOr, IsAdvisoryID, ToScalar;
    var choices := [Get(a, "module_name"), Get(a, "name")];
    var n :| IsOr(choices, n) && f.name == ToScalar(str, n);
    var m :| IsOr(choices, m) && g.name == ToScalar(str, m);
    OrIsOne(choices, n, m);
    var x :| IsAdvisoryID(str, a, x) && f.advisory == ToScalar(str, x);
    var y :| IsAdvisoryID(str, a, y) && g.advisory == ToScalar(str, y);
    OneAdvisoryID(str, a, x, y);
  }

  lemma InitMembers(a: seq<int>)
    requires Increasing(a) && a != []
    ensures forall j :: j in a[..|a| - 1] <==> j in a && j != a[|a| - 1]
  {
    assert a == a[..|a| - 1] + [a[|a| - 1]];
  }

  lemma BothEmpty(a: seq<int>, b: seq<int>)
    requires forall j :: j in a <==> j in b
    ensures a == [] <==> b == []
  {
    if a != [] {
      var x := a[0];
      assert x in a && x in b;
    }
    if b != [] {
      var x := b[0];
      assert x in b && x in a;
    }
  }

  /** Increasing positions are determined by their members. */
  lemma {:induction false} OneIncreasing(a: seq<int>, b: seq<int>)
    requires Increasing(a) && Increasing(b) && forall j :: j in a <==> j in b
    ensures a == b
  {
    BothEmpty(a, b);
    if a == [] {
    } else {
      var n, m := |a| - 1, |b| - 1;
      assert a[n] in b && b[m] in a;
      assert a[n] == b[m];
      InitMembers(a);
      InitMembers(b);
      forall j ensures j in a[..n] <==> j in b[..m] {
        assert j in a <==> j in b;
      }
      OneIncreasing(a[..n], b[..m]);
      assert a == a[..n] + [a[n]] && b == b[..m] + [b[m]];
    }
  }

  lemma OneItemFinding(str: Json -> string, name: string, severity: Scalar, item: Json, f: Finding, g: Finding)
    requires IsItemFinding(str, name, severity, item, f) && IsItemFinding(str, name, severity, item, g)
    ensures f == g
  {
    hide Offers, IsTrue, ToScalar;
    var x :| Offers(item, x) && IsTrue(x) && f == Finding(Text(name), severity, ToScalar(str, x));
    var y :| Offers(item, y) && IsTrue(y) && g == Finding(Text(name), severity, ToScalar(str, y));
    OneID(item, x);
    OneID(item, y);
  }

  lemma OneVulnFindings(str: Json -> string, name: string, vuln: Json, fs: seq<Finding>, gs: seq<Finding>)
    requires AreVulnFindings(str, name, vuln, fs) && AreVulnFindings(str, name, vuln, gs)
    ensures fs == gs
  {
    hide Get, OffersID, IsItemFinding, ToScalar;
    var severity := ToScalar(str, Get(vuln.fields, "severity"));
    var items, at :| AreItems(Get(vuln.fields, "via"), items)
                     && AreItemFindings(str, name, severity, items, fs, at);
    var items', at' :| AreItems(Get(vuln.fields, "via"), items')
                       && AreItemFindings(str, name, severity, items', gs, at');
    OneIncreasing(at, at');
    forall k | 0 <= k < |fs| ensures fs[k] == gs[k] {
      OneItemFinding(str, name, severity, items[at[k]], fs[k], gs[k]);
    }
  }

  /** A report has one list of findings. */
  lemma OneReport(str: Json -> string, data: Json, fs: seq<Finding>, gs: seq<Finding>)
    requires IsReport(str, data, fs) && IsReport(str, data, gs)
    ensures fs == gs
  {
    hide Get, FieldsOf, IsAdvisoryFinding, AreVulnFindings;
    var advisories, vulns := FieldsOf(Get(data.fields, "advisories")), FieldsOf(Get(data.fields, "vulnerabilities"));
    var a, p :| AreAdvisories(str, advisories, a) && AreVulns(str, vulns, p) && fs == a + Flat(p);
    var b, q :| AreAdvisories(str, advisories, b) && AreVulns(str, vulns, q) && gs == b + Flat(q);
    forall i | 0 <= i < |a| ensures a[i] == b[i] {
      OneAdvisoryFinding(str, advisories[i].1.fields, a[i], b[i]);
    }
    forall i | 0 <= i < |p| ensures p[i] == q[i] {
      OneVulnFindings(str, vulns[i].0, vulns[i].1, p[i], q[i]);
    }
    assert a == b && p == q;
  }
}
