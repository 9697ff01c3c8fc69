/**
 The audit-exception checker as a program: iter_vulns as a loop, and main, of
 tools/check_pnpm_audit_exceptions.py.
 */
module AuditProgram {
  import opened Common
  import opened ExceptionsParser
  import opened AuditVerdict
  import opened AuditFindings
  import opened AuditContents

  // ---------- the loops ----------

  method CollectVia(items: seq<Json>) returns (ids: seq<Json>, titles: seq<Json>)
    ensures |ids| == |titles| == |items|
    ensures forall i :: 0 <= i < |items| ==> ids[i] == ViaID(items[i]) && titles[i] == ViaTitle(items[i])
  {
    ids, titles := [], [];
    for i := 0 to |items|
      invariant |ids| == |titles| == i
      invariant forall k :: 0 <= k < i ==> ids[k] == ViaID(items[k]) && titles[k] == ViaTitle(items[k])
    {
      ids, titles := ids + [ViaID(items[i])], titles + [ViaTitle(items[i])];
    }
  }

  method IterVuln(str: Json -> string, name: string, vuln: Json) returns (result: Option<seq<Finding>>)
    ensures result == VulnFindings(str, name, vuln)
    ensures result.None? <==> VulnRaisesOn(vuln)
    ensures result.Some? ==> AreVulnFindings(str, name, vuln, result.value)
  {
    hide IsTrue, ViaID, ViaTitle, ToScalar, VulnRaisesOn, AreVulnFindings;
    VulnDescribed(str, name, vuln);
    if !vuln.JObject? {
      return None;
    }
    var severity := ToScalar(str, Get(vuln.fields, "severity"));
    var items := ViaItems(Get(vuln.fields, "via"));
    var ids, titles := CollectVia(items);
    for i := 0 to |titles|
      invariant forall k :: 0 <= k < i ==> IsTrue(titles[k]) ==> titles[k].JString?
    {
      if IsTrue(titles[i]) && !titles[i].JString? {
        return None;
      }
    }
    var fs := [];
    for i := 0 to |ids|
      invariant fs == ViaFindings(str, name, severity, items[..i])
    {
      assert items[..i + 1][..i] == items[..i];
      if IsTrue(ids[i]) {
        fs := fs + [Finding(Text(name), severity, ToScalar(str, ids[i]))];
      }
    }
    assert items[..|items|] == items;
    return Some(fs);
  }

  lemma {:induction false} AdvisoryRaises(str: Json -> string, advisories: seq<(string, Json)>, i: nat)
    requires i < |advisories| && AdvisoryFinding(str, advisories[i].1).None?
    ensures AdvisoryFindings(str, advisories).None?
  {
    hide AdvisoryFinding;
    var n := |advisories| - 1;
    if i == n {
    } else {
      AdvisoryRaises(str, advisories[..n], i);
    }
  }

  lemma {:induction false} VulnRaises(str: Json -> string, vulns: seq<(string, Json)>, i: nat)
    requires i < |vulns| && VulnFindings(str, vulns[i].0, vulns[i].1).None?
    ensures AllVulnFindings(str, vulns).None?
  {
    hide VulnFindings;
    var n := |vulns| - 1;
    if i == n {
    } else {
      VulnRaises(str, vulns[..n], i);
    }
  }

  method IterAdvisories(str: Json -> string, advisories: seq<(string, Json)>) returns (result: Option<seq<Finding>>)
    ensures result == AdvisoryFindings(str, advisories)
  {
    hide AdvisoryFinding;
    var fs := [];
    for i := 0 to |advisories|
      invariant AdvisoryFindings(str, advisories[..i]) == Some(fs)
    {
      assert advisories[..i + 1][..i] == advisories[..i];
      var f := AdvisoryFinding(str, advisories[i].1);
      if f.None? {
        AdvisoryRaises(str, advisories, i);
        return None;
      }
      fs := fs + [f.value];
    }
    assert advisories[..|advisories|] == advisories;
    return Some(fs);
  }

  method IterNamed(str: Json -> string, vulns: seq<(string, Json)>) returns (result: Option<seq<Finding>>)
    ensures result == AllVulnFindings(str, vulns)
  {
    hide VulnFindings, VulnRaisesOn, AreVulnFindings;
    var fs := [];
    for i := 0 to |vulns|
      invariant AllVulnFindings(str, vulns[..i]) == Some(fs)
    {
      assert vulns[..i + 1][..i] == vulns[..i];
      var own := IterVuln(str, vulns[i].0, vulns[i].1);
      if own.None? {
        VulnRaises(str, vulns, i);
        return None;
      }
      fs := fs + own.value;
    }
    assert vulns[..|vulns|] == vulns;
    return Some(fs);
  }

  method IterVulns(str: Json -> string, data: Json) returns (result: Option<seq<Finding>>)
    ensures result == Findings(str, data)
    ensures result.None? <==> ReportRaises(data)
    ensures result.Some? ==> IsReport(str, data, result.value)
  {
    hide AdvisoryFindings, AllVulnFindings, Get, FieldsOf, ReportRaises, IsReport;
    FindingsDescribed(str, data);
    if !data.JObject? {
      return None;
    }
    var advisories := IterAdvisories(str, FieldsOf(Get(data.fields, "advisories")));
    if advisories.None? {
      return None;
    }
    var vulns := IterNamed(str, FieldsOf(Get(data.fields, "vulnerabilities")));
    if vulns.None? {
      return None;
    }
    return Some(advisories.value + vulns.value);
  }

  // ---------- the program ----------

  /** The exit code, or an uncaught exception. */
  datatype Ending = Exits(code: int) | Raises

  /** How main ends. */
  ghost function Ends(host: Host, str: Json -> string, data: Json, lines: seq<string>): Ending {
    var es, fs := Parse(lines), Findings(str, data);
    if es.None? || fs.None? || AuditVerdict.Raises(fs.value) then Raises
    else Exits(if Passes(host, es.value, fs.value) then 0 else 1)
  }

  lemma EndCases(host: Host, str: Json -> string, data: Json, lines: seq<string>)
    ensures
      var es, fs := Parse(lines), Findings(str, data);
      Ends(host, str, data, lines) ==
      if es.None? || fs.None? then Raises
      else
        match Verdict(host, es.value, fs.value)
        case AttributeError => Raises
        case Exit(code) => Exits(code)
    ensures
      var es, fs := Parse(lines), Findings(str, data);
      var runs := es.Some? && fs.Some? && !AuditVerdict.Raises(fs.value);
      && (Ends(host, str, data, lines) == Exits(0) <==> runs && Passes(host, es.value, fs.value))
      && (Ends(host, str, data, lines) == Exits(1) <==> runs && !Passes(host, es.value, fs.value))
      && (Ends(host, str, data, lines) == Raises <==> !runs)
  {
    hide Parse, Findings, Passes, AuditVerdict.Raises;
  }

  /**
   main: it exits with 0 exactly when the exception list parses, the report can be walked,
   no severity in it is a true value other than a string, and the audit passes; it raises
   exactly when one of the first three fails, and exits with 1 otherwise.
   */
  method Check(host: Host, str: Json -> string, data: Json, lines: seq<string>) returns (ending: Ending)
    ensures ending == Ends(host, str, data, lines)
    ensures
      var es, fs := Parse(lines), Findings(str, data);
      var runs := es.Some? && fs.Some? && !AuditVerdict.Raises(fs.value);
      && (ending == Exits(0) <==> runs && Passes(host, es.value, fs.value))
      && (ending == Exits(1) <==> runs && !Passes(host, es.value, fs.value))
      && (ending == Raises <==> !runs)
  {
    hide *;
    EndCases(host, str, data, lines);
    var es := ParseExceptions(lines);
    var fs := IterVulns(str, data);
    if es.None? || fs.None? {
      return Raises;
    }
    var outcome, index, report := CheckAudit(host, es.value, fs.value);
    match outcome
    case AttributeError => return Raises;
    case Exit(code) => return Exits(code);
  }

  // ---------- entries that go unseen ----------

  /** Both lists, if neither raises. */
  function Joined(a: Option<seq<Finding>>, b: Option<seq<Finding>>): Option<seq<Finding>> {
    if a.None? || b.None? then None else Some(a.value + b.value)
  }

  lemma JoinedNothing(a: Option<seq<Finding>>)
    ensures Joined(a, Some([])) == a
  {
    if a.Some? {
      assert a.value + [] == a.value;
    }
  }

  lemma JoinedAssociative(a: Option<seq<Finding>>, b: Option<seq<Finding>>, c: Option<seq<Finding>>)
    ensures Joined(Joined(a, b), c) == Joined(a, Joined(b, c))
  {
    if a.Some? && b.Some? && c.Some? {
      assert (a.value + b.value) + c.value == a.value + (b.value + c.value);
    }
  }

  lemma VulnStep(str: Json -> string, vulns: seq<(string, Json)>, v: (string, Json))
    ensures AllVulnFindings(str, vulns + [v]) == Joined(AllVulnFindings(str, vulns), VulnFindings(str, v.0, v.1))
  {
    hide VulnFindings;
    assert (vulns + [v])[..|vulns|] == vulns;
  }

  /** The findings of two lists of vulnerabilities are those of the one, then those of the other. */
  lemma {:induction false} VulnsAppend(str: Json -> string, a: seq<(string, Json)>, b: seq<(string, Json)>)
    ensures AllVulnFindings(str, a + b) == Joined(AllVulnFindings(str, a), AllVulnFindings(str, b))
  {
    hide VulnFindings;
    if b == [] {
      assert a + b == a;
      JoinedNothing(AllVulnFindings(str, a));
    } else {
      var n := |b| - 1;
      VulnsAppend(str, a, b[..n]);
      assert a + b == (a + b[..n]) + [b[n]] && b == b[..n] + [b[n]];
      VulnStep(str, a + b[..n], b[n]);
      VulnStep(str, b[..n], b[n]);
      hide AllVulnFindings, Joined;
      JoinedAssociative(AllVulnFindings(str, a), AllVulnFindings(str, b[..n]), VulnFindings(str, b[n].0, b[n].1));
    }
  }

  /** The vulnerability is an object whose titles can be joined, and none of its `via` items offers an id. */
  ghost predicate OffersNothing(vuln: Json) {
    vuln.JObject? && Joinable(ViaOf(vuln.fields)) && !HasID(ViaOf(vuln.fields))
  }

  lemma NoFindings(str: Json -> string, name: string, vuln: Json)
    requires OffersNothing(vuln)
    ensures AllVulnFindings(str, [(name, vuln)]) == Some([])
  {
    var items, severity := ViaOf(vuln.fields), ToScalar(str, Get(vuln.fields, "severity"));
    ViaFindingsContents(str, name, severity, items, ViaFindings(str, name, severity, items));
    hide ViaFindings, ViaOf, Joinable, HasID, Get, ToScalar;
    assert VulnFindings(str, name, vuln) == Some([]);
    VulnStep(str, [], (name, vuln));
    JoinedNothing(AllVulnFindings(str, []));
    assert [] + [(name, vuln)] == [(name, vuln)];
  }

  /** The report with these vulnerabilities. */
  function WithVulns(data: seq<(string, Json)>, vulns: seq<(string, Json)>): Json {
    JObject([("vulnerabilities", JObject(vulns))] + data)
  }

  /** The field that is put in front is the one found, and no other field changes. */
  lemma GetVulns(data: seq<(string, Json)>, vulns: seq<(string, Json)>)
    ensures Get(WithVulns(data, vulns).fields, "vulnerabilities") == JObject(vulns)
    ensures Get(WithVulns(data, vulns).fields, "advisories") == Get(data, "advisories")
  {
    assert WithVulns(data, vulns).fields[1..] == data;
    assert "vulnerabilities"[0] != "advisories"[0];
  }

  /**
   A vulnerability none of whose `via` items offers an id is passed over without a word,
   wherever it is listed and whatever its severity: the findings, and so the exit code, are
   those of the report without the entry.
   */
  lemma PassedOver(
    str: Json -> string, data: seq<(string, Json)>, a: seq<(string, Json)>, b: seq<(string, Json)>,
    name: string, vuln: Json, host: Host, lines: seq<string>)
    requires OffersNothing(vuln)
    ensures Findings(str, WithVulns(data, a + [(name, vuln)] + b)) == Findings(str, WithVulns(data, a + b))
    ensures Ends(host, str, WithVulns(data, a + [(name, vuln)] + b), lines) ==
            Ends(host, str, WithVulns(data, a + b), lines)
  {
    hide AllVulnFindings, AdvisoryFindings, Joined, OffersNothing, Passes;
    NoFindings(str, name, vuln);
    VulnsAppend(str, a, [(name, vuln)]);
    VulnsAppend(str, a + [(name, vuln)], b);
    VulnsAppend(str, a, b);
    JoinedNothing(AllVulnFindings(str, a));
    assert AllVulnFindings(str, a + [(name, vuln)] + b) == AllVulnFindings(str, a + b);
    GetVulns(data, a + [(name, vuln)] + b);
    GetVulns(data, a + b);
  }
}
