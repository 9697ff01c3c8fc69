/**
 The audit gate, from the report and the exception file to the exit code, in plain terms:
 main of tools/check_pnpm_audit_exceptions.py.
 */
module AuditGate {
  import opened Common
  import opened PyText
  import opened ExceptionsParser
  import opened AuditVerdict
  import opened AuditFindings
  import opened AuditContents
  import opened AuditProgram

  // ---------- exceptions ----------

  predicate Has(r: Record, field: string) {
    field in r && r[field] != ""
  }

  /**
   None of the five fields is missing or empty, the date is in ISO format, and package and
   advisory are not blank.
   */
  predicate CompleteException(host: Host, r: Record) {
    && Has(r, "package") && Has(r, "advisory") && Has(r, "severity") && Has(r, "mitigation") && Has(r, "expires_on")
    && host.fromISO(r["expires_on"]).Some?
    && Strip(r["package"]) != "" && host.lower(Strip(r["advisory"])) != ""
  }

  /** Two exceptions for one package and one advisory. */
  predicate ForTheSame(host: Host, r: Record, q: Record)
    requires CompleteException(host, r) && CompleteException(host, q)
  {
    Strip(r["package"]) == Strip(q["package"]) && host.lower(Strip(r["advisory"])) == host.lower(Strip(q["advisory"]))
  }

  ghost predicate SoundExceptions(host: Host, es: seq<Record>) {
    && (forall i :: 0 <= i < |es| ==> CompleteException(host, es[i]))
    && (forall i, j :: 0 <= i < j < |es| ==> !ForTheSame(host, es[i], es[j]))
  }

  // ---------- findings ----------

  /** A severity that reads `high` or `critical`, in any case and with any white space around it. */
  predicate IsHigh(host: Host, f: Finding) {
    && f.severity.Text? && f.severity.s != ""
    && (host.lower(Strip(f.severity.s)) == "high" || host.lower(Strip(f.severity.s)) == "critical")
  }

  predicate IsNamed(f: Finding) {
    match f.name
    case Null => false
    case Text(s) => s != ""
    case Other(_, truthy) => truthy
  }

  /** Only named findings of high severity matter. */
  predicate Matters(host: Host, f: Finding) {
    IsHigh(host, f) && IsNamed(f)
  }

  function PackageOf(f: Finding): string {
    match f.name
    case Null => ""
    case Text(s) => Strip(s)
    case Other(s, _) => Strip(s)
  }

  function AdvisoryOf(host: Host, f: Finding): string {
    match f.advisory
    case Null => ""
    case Text(s) => host.lower(Strip(s))
    case Other(s, _) => host.lower(Strip(s))
  }

  /** The first finding that matters of its package and advisory. */
  ghost predicate FirstMention(host: Host, fs: seq<Finding>, i: int) {
    && 0 <= i < |fs| && Matters(host, fs[i])
    && forall j :: 0 <= j < i && Matters(host, fs[j]) ==>
      PackageOf(fs[j]) != PackageOf(fs[i]) || AdvisoryOf(host, fs[j]) != AdvisoryOf(host, fs[i])
  }

  /**
   The exception is for the finding's package and advisory, has its severity or a blank one,
   and has not expired: it still holds on the day it names.
   */
  predicate Permits(host: Host, r: Record, f: Finding)
    requires CompleteException(host, r) && f.severity.Text?
  {
    && Strip(r["package"]) == PackageOf(f) && host.lower(Strip(r["advisory"])) == AdvisoryOf(host, f)
    && (host.lower(Strip(r["severity"])) == "" || host.lower(Strip(r["severity"])) == host.lower(Strip(f.severity.s)))
    && host.fromISO(r["expires_on"]).value >= host.today
  }

  ghost predicate Permitted(host: Host, es: seq<Record>, f: Finding)
    requires f.severity.Text?
  {
    exists i :: 0 <= i < |es| && CompleteException(host, es[i]) && Permits(host, es[i], f)
  }

  /**
   The gate opens: the exceptions are sound, every finding that matters has an advisory, and
   the first mention of each package and advisory is permitted.
   */
  ghost predicate GateOpens(host: Host, es: seq<Record>, fs: seq<Finding>) {
    && SoundExceptions(host, es)
    && (forall i :: 0 <= i < |fs| && Matters(host, fs[i]) ==> AdvisoryOf(host, fs[i]) != "")
    && (forall i :: FirstMention(host, fs, i) ==> Permitted(host, es, fs[i]))
  }

  // ---------- the gate is the verdict ----------

  lemma FiveFields(r: Record)
    ensures HasFields(r) <==>
      Has(r, "package") && Has(r, "advisory") && Has(r, "severity") && Has(r, "mitigation") && Has(r, "expires_on")
  {
    assert "package" in REQUIRED_FIELDS && "advisory" in REQUIRED_FIELDS && "severity" in REQUIRED_FIELDS;
    assert "mitigation" in REQUIRED_FIELDS && "expires_on" in REQUIRED_FIELDS;
  }

  lemma ExceptionIs(host: Host, r: Record)
    ensures Classify(host, r).Entry? <==> CompleteException(host, r)
    ensures CompleteException(host, r) ==>
      Classify(host, r) ==
      Entry(
        (Strip(r["package"]), host.lower(Strip(r["advisory"]))),
        Allowed(host.lower(Strip(r["severity"])), host.fromISO(r["expires_on"]).value))
  {
    hide Strip, HasFields;
    FiveFields(r);
  }

  lemma FindingIs(host: Host, f: Finding)
    requires !RaisesOn(f)
    ensures Relevant(host, f) <==> Matters(host, f)
    ensures KeyOf(host, f) == (PackageOf(f), AdvisoryOf(host, f))
    ensures Identified(host, f) <==> AdvisoryOf(host, f) != ""
    ensures Matters(host, f) ==> f.severity.Text? && SeverityOf(host, f) == host.lower(Strip(f.severity.s))
  {
    hide Strip;
  }

  ghost predicate KeyOfException(host: Host, r: Record)
    requires CompleteException(host, r)
  {
    var e := Classify(host, r);
    e.Entry? && e.key == (Strip(r["package"]), host.lower(Strip(r["advisory"])))
  }

  lemma SoundIs(host: Host, es: seq<Record>)
    ensures WellFormed(host, es) <==> SoundExceptions(host, es)
  {
    hide Classify, CompleteException, Strip;
    forall i | 0 <= i < |es|
      ensures Classify(host, es[i]).Entry? <==> CompleteException(host, es[i])
      ensures CompleteException(host, es[i]) ==> KeyOfException(host, es[i])
    {
      ExceptionIs(host, es[i]);
    }
    if SoundExceptions(host, es) {
      forall i, j | 0 <= i < j < |es| ensures !Clash(Classify(host, es[i]), Classify(host, es[j])) {
        assert !ForTheSame(host, es[i], es[j]);
      }
    }
    if WellFormed(host, es) {
      forall i, j | 0 <= i < j < |es| ensures !ForTheSame(host, es[i], es[j]) {
        assert !Clash(Classify(host, es[i]), Classify(host, es[j]));
      }
    }
  }

  lemma PermitsIs(host: Host, r: Record, f: Finding)
    requires !RaisesOn(f) && Matters(host, f)
    ensures f.severity.Text?
    ensures Matches(host, r, f) <==> CompleteException(host, r) && Permits(host, r, f)
  {
    hide Classify, KeyOf, SeverityOf, Strip, Relevant, CompleteException, Matters, Identified;
    ExceptionIs(host, r);
    FindingIs(host, f);
  }

  lemma PermittedIs(host: Host, es: seq<Record>, f: Finding)
    requires !RaisesOn(f) && Matters(host, f)
    ensures f.severity.Text?
    ensures Covered(host, es, f) <==> Permitted(host, es, f)
  {
    hide Matches, CompleteException, Permits;
    forall i | 0 <= i < |es|
      ensures Matches(host, es[i], f) <==> CompleteException(host, es[i]) && Permits(host, es[i], f)
    {
      PermitsIs(host, es[i], f);
    }
  }

  lemma MentionIs(host: Host, fs: seq<Finding>, i: int)
    requires !AuditVerdict.Raises(fs)
    ensures FirstMention(host, fs, i) ==> 0 <= i < |fs| && Matters(host, fs[i])
    ensures FirstOfKey(host, fs, i) <==> FirstMention(host, fs, i) && AdvisoryOf(host, fs[i]) != ""
  {
    hide Matters, Relevant, KeyOf, Identified, PackageOf, AdvisoryOf, RaisesOn;
    forall j | 0 <= j < |fs|
      ensures Relevant(host, fs[j]) <==> Matters(host, fs[j])
      ensures KeyOf(host, fs[j]) == (PackageOf(fs[j]), AdvisoryOf(host, fs[j]))
      ensures Identified(host, fs[j]) <==> AdvisoryOf(host, fs[j]) != ""
    {
      FindingIs(host, fs[j]);
    }
  }

  /** On findings that do not raise, the gate opens exactly when the audit passes. */
  lemma GateIsVerdict(host: Host, es: seq<Record>, fs: seq<Finding>)
    requires !AuditVerdict.Raises(fs)
    ensures GateOpens(host, es, fs) <==> Passes(host, es, fs)
  {
    hide WellFormed, SoundExceptions, Relevant, Matters, Identified, AdvisoryOf, FirstMention, FirstOfKey, Covered,
      Permitted, RaisesOn;
    SoundIs(host, es);
    forall i | 0 <= i < |fs|
      ensures Relevant(host, fs[i]) <==> Matters(host, fs[i])
      ensures Identified(host, fs[i]) <==> AdvisoryOf(host, fs[i]) != ""
      ensures Matters(host, fs[i]) ==>
        fs[i].severity.Text? && (Covered(host, es, fs[i]) <==> Permitted(host, es, fs[i]))
    {
      assert !RaisesOn(fs[i]);
      FindingIs(host, fs[i]);
      if Matters(host, fs[i]) {
        PermittedIs(host, es, fs[i]);
      }
    }
    forall i
      ensures FirstMention(host, fs, i) ==> 0 <= i < |fs| && Matters(host, fs[i])
      ensures FirstOfKey(host, fs, i) <==> FirstMention(host, fs, i) && AdvisoryOf(host, fs[i]) != ""
    {
      MentionIs(host, fs, i);
    }
  }

  // ---------- the exit code ----------

  /** A severity that is true and no text. */
  ghost predicate BadSeverity(fs: seq<Finding>) {
    exists i :: 0 <= i < |fs| && fs[i].severity.Other? && fs[i].severity.truthy
  }

  lemma BadSeverityRaises(fs: seq<Finding>)
    ensures BadSeverity(fs) <==> AuditVerdict.Raises(fs)
  {
  }

  /** The exception file and the report can be read, and come to these exceptions and findings. */
  ghost predicate Reads(
    str: Json -> string, data: Json, lines: seq<string>, es: seq<Record>, fs: seq<Finding>)
  {
    Parse(lines) == Some(es) && IsReport(str, data, fs) && !ReportRaises(data) && !BadSeverity(fs)
  }

  /**
   How the program ends: with 0 exactly when the file and the report can be read and the gate
   opens for what they hold, with 1 exactly when they can be read and it does not, and by
   raising exactly when they cannot be read.
   */
  lemma ExitMeans(host: Host, str: Json -> string, data: Json, lines: seq<string>)
    ensures Ends(host, str, data, lines) == Exits(0) <==>
      exists es, fs :: Reads(str, data, lines, es, fs) && GateOpens(host, es, fs)
    ensures Ends(host, str, data, lines) == Exits(1) <==>
      exists es, fs :: Reads(str, data, lines, es, fs) && !GateOpens(host, es, fs)
    ensures Ends(host, str, data, lines) == Ending.Raises <==> forall es, fs :: !Reads(str, data, lines, es, fs)
  {
    hide Parse, Findings, Passes, IsReport, ReportRaises, BadSeverity, AuditVerdict.Raises, GateOpens;
    FindingsDescribed(str, data);
    if Parse(lines).Some? && Findings(str, data).Some? {
      var es, fs := Parse(lines).value, Findings(str, data).value;
      BadSeverityRaises(fs);
      if !BadSeverity(fs) {
        GateIsVerdict(host, es, fs);
        assert Reads(str, data, lines, es, fs);
      }
    }
    forall es, fs | Reads(str, data, lines, es, fs)
      ensures Parse(lines) == Some(es) && Findings(str, data) == Some(fs)
    {
      OneReport(str, data, fs, Findings(str, data).value);
    }
  }

  // ---------- what exit code 0 says of one entry of the report ----------

  /** Of the findings up to one that matters, some is the first mention of the same package and advisory. */
  lemma {:induction false} MentionedFirst(host: Host, fs: seq<Finding>, i: int) returns (j: int)
    requires 0 <= i < |fs| && Matters(host, fs[i])
    ensures 0 <= j <= i && FirstMention(host, fs, j)
    ensures PackageOf(fs[j]) == PackageOf(fs[i]) && AdvisoryOf(host, fs[j]) == AdvisoryOf(host, fs[i])
    decreases i
  {
    hide Matters, PackageOf, AdvisoryOf;
    if FirstMention(host, fs, i) {
      j := i;
    } else {
      var k :| 0 <= k < i && Matters(host, fs[k])
               && PackageOf(fs[k]) == PackageOf(fs[i]) && AdvisoryOf(host, fs[k]) == AdvisoryOf(host, fs[i]);
      j := MentionedFirst(host, fs, k);
    }
  }

  /** The finding has an advisory, and the first mention of its package and advisory is permitted. */
  ghost predicate LetThrough(host: Host, str: Json -> string, data: Json, lines: seq<string>, f: Finding) {
    && AdvisoryOf(host, f) != ""
    && exists es, fs, j ::
      && Reads(str, data, lines, es, fs) && FirstMention(host, fs, j)
      && PackageOf(fs[j]) == PackageOf(f) && AdvisoryOf(host, fs[j]) == AdvisoryOf(host, f)
      && Permitted(host, es, fs[j])
  }

  lemma MentionMatters(host: Host, fs: seq<Finding>, j: int)
    requires FirstMention(host, fs, j)
    ensures 0 <= j < |fs| && Matters(host, fs[j]) && fs[j].severity.Text?
  {
  }

  lemma AllLetThrough(
    host: Host, str: Json -> string, data: Json, lines: seq<string>, es: seq<Record>, fs: seq<Finding>, i: int)
    requires Reads(str, data, lines, es, fs) && GateOpens(host, es, fs) && 0 <= i < |fs|
    ensures Matters(host, fs[i]) ==> LetThrough(host, str, data, lines, fs[i])
  {
    hide Reads, SoundExceptions, Matters, PackageOf, AdvisoryOf, FirstMention, Permitted;
    if Matters(host, fs[i]) {
      var j := MentionedFirst(host, fs, i);
      MentionMatters(host, fs, j);
      assert LetThrough(host, str, data, lines, fs[i]);
    }
  }

  /**
   When the program exits with 0, every advisory of the report is an object, and if it is named
   and its severity is high or critical, it has an id, and an exception permits the first
   mention of its package and advisory.
   */
  lemma AdvisoryLetThrough(
    host: Host, str: Json -> string, data: Json, lines: seq<string>, advisories: seq<(string, Json)>, i: int)
    requires data.JObject? && Get(data.fields, "advisories") == JObject(advisories) && 0 <= i < |advisories|
    requires Ends(host, str, data, lines) == Exits(0)
    ensures
      && advisories[i].1.JObject?
      && exists f ::
        && IsAdvisoryFinding(str, advisories[i].1.fields, f)
        && (Matters(host, f) ==> LetThrough(host, str, data, lines, f))
  {
    hide Get, Ends, IsAdvisoryFinding, AreVulns, Parse, ReportRaises, BadSeverity, GateOpens, Matters, LetThrough;
    ExitMeans(host, str, data, lines);
    var es, fs :| Reads(str, data, lines, es, fs) && GateOpens(host, es, fs);
    var found, parts :| AreAdvisories(str, FieldsOf(Get(data.fields, "advisories")), found)
                        && AreVulns(str, FieldsOf(Get(data.fields, "vulnerabilities")), parts)
                        && fs == found + Flat(parts);
    assert fs[i] == found[i];
    AllLetThrough(host, str, data, lines, es, fs, i);
  }

  /** Where the findings of one vulnerability stand among those of all. */
  lemma {:induction false} InFlat(parts: seq<seq<Finding>>, i: int, k: int) returns (at: int)
    requires 0 <= i < |parts| && 0 <= k < |parts[i]|
    ensures 0 <= at < |Flat(parts)| && Flat(parts)[at] == parts[i][k]
    decreases |parts|
  {
    var n := |parts| - 1;
    if i == n {
      at := |Flat(parts[..n])| + k;
    } else {
      at := InFlat(parts[..n], i, k);
    }
  }

  lemma InReport(fs: seq<Finding>, found: seq<Finding>, parts: seq<seq<Finding>>, i: int, k: int) returns (at: int)
    requires fs == found + Flat(parts) && 0 <= i < |parts| && 0 <= k < |parts[i]|
    ensures 0 <= at < |fs| && fs[at] == parts[i][k]
  {
    hide Flat;
    at := InFlat(parts, i, k);
    at := |found| + at;
  }

  /** The gate has let the finding of one item of a vulnerability through, if it matters. */
  ghost predicate ItemLetThrough(
    host: Host, str: Json -> string, data: Json, lines: seq<string>, name: string, severity: Json, item: Json)
  {
    exists f ::
      && IsItemFinding(str, name, ToScalar(str, severity), item, f)
      && (Matters(host, f) ==> LetThrough(host, str, data, lines, f))
  }

  lemma ItemAmong(str: Json -> string, name: string, vuln: Json, fs: seq<Finding>, items: seq<Json>, j: int)
    returns (k: int)
    requires AreVulnFindings(str, name, vuln, fs) && AreItems(Get(vuln.fields, "via"), items)
    requires 0 <= j < |items| && OffersID(items[j])
    ensures 0 <= k < |fs| && IsItemFinding(str, name, ToScalar(str, Get(vuln.fields, "severity")), items[j], fs[k])
  {
    hide Get, OffersID, IsItemFinding, ToScalar;
    var severity := ToScalar(str, Get(vuln.fields, "severity"));
    var items', at :| AreItems(Get(vuln.fields, "via"), items') && AreItemFindings(str, name, severity, items', fs, at);
    assert j in at;
    k :| 0 <= k < |at| && at[k] == j;
  }

  lemma ItemPasses(
    host: Host, str: Json -> string, data: Json, lines: seq<string>, es: seq<Record>, fs: seq<Finding>,
    found: seq<Finding>, parts: seq<seq<Finding>>, i: int, name: string, vuln: Json, items: seq<Json>, j: int)
    requires Reads(str, data, lines, es, fs) && GateOpens(host, es, fs) && fs == found + Flat(parts)
    requires vuln.JObject? && 0 <= i < |parts| && AreVulnFindings(str, name, vuln, parts[i])
    requires AreItems(Get(vuln.fields, "via"), items) && 0 <= j < |items| && OffersID(items[j])
    ensures ItemLetThrough(host, str, data, lines, name, Get(vuln.fields, "severity"), items[j])
  {
    hide Reads, GateOpens, AreItems, OffersID, IsItemFinding, Matters, LetThrough, Get, Flat, AreVulnFindings, ToScalar;
    var k := ItemAmong(str, name, vuln, parts[i], items, j);
    var at := InReport(fs, found, parts, i, k);
    AllLetThrough(host, str, data, lines, es, fs, at);
    var f := parts[i][k];
    assert IsItemFinding(str, name, ToScalar(str, Get(vuln.fields, "severity")), items[j], f);
  }

  /**
   The same for the vulnerabilities: every one is an object, and for each item of its `via` that
   offers an id, if the vulnerability is named and its severity is high or critical, an exception
   permits the first mention of its name and that id.
   */
  lemma VulnLetThrough(
    host: Host, str: Json -> string, data: Json, lines: seq<string>, vulns: seq<(string, Json)>, i: int)
    requires data.JObject? && Get(data.fields, "vulnerabilities") == JObject(vulns) && 0 <= i < |vulns|
    requires Ends(host, str, data, lines) == Exits(0)
    ensures
      && vulns[i].1.JObject?
      && var fields := vulns[i].1.fields;
         forall items, j :: AreItems(Get(fields, "via"), items) && 0 <= j < |items| && OffersID(items[j]) ==>
           ItemLetThrough(host, str, data, lines, vulns[i].0, Get(fields, "severity"), items[j])
  {
    hide Get, Ends, Parse, ReportRaises, BadSeverity, GateOpens, AreAdvisories, AreItems, OffersID, ItemLetThrough,
      Flat;
    ExitMeans(host, str, data, lines);
    var es, fs :| Reads(str, data, lines, es, fs) && GateOpens(host, es, fs);
    var found, parts :| AreAdvisories(str, FieldsOf(Get(data.fields, "advisories")), found)
                        && AreVulns(str, FieldsOf(Get(data.fields, "vulnerabilities")), parts)
                        && fs == found + Flat(parts);
    assert AreVulnFindings(str, vulns[i].0, vulns[i].1, parts[i]);
    var fields := vulns[i].1.fields;
    forall items, j | AreItems(Get(fields, "via"), items) && 0 <= j < |items| && OffersID(items[j])
      ensures ItemLetThrough(host, str, data, lines, vulns[i].0, Get(fields, "severity"), items[j])
    {
      ItemPasses(host, str, data, lines, es, fs, found, parts, i, vulns[i].0, vulns[i].1, items, j);
    }
  }
}
