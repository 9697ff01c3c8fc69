/**
 The verdict of the audit-exception checker: the normalize functions and main of
 tools/check_pnpm_audit_exceptions.py.

 str.lower, date.fromisoformat and today's date are a `Host` that is passed in. A finding
 is what iter_vulns yields; a JSON value that is not a string is its str() and its truth.
 */
module AuditVerdict {
  import opened Common
  import opened PyText
  import opened ExceptionsParser

  datatype Host = Host(lower: string -> string, fromISO: string -> Option<int>, today: int)

  datatype Scalar = Null | Text(s: string) | Other(str: string, truthy: bool)

  datatype Finding = Finding(name: Scalar, severity: Scalar, advisory: Scalar)

  type Key = (string, string)

  // ---------- normalization ----------

  predicate Truthy(v: Scalar) {
    match v
    case Null => false
    case Text(s) => s != ""
    case Other(_, t) => t
  }

  function Str(v: Scalar): string {
    match v
    case Null => ""
    case Text(s) => s
    case Other(s, _) => s
  }

  /** A severity that is true but no string has no strip method: AttributeError. */
  predicate RaisesOn(f: Finding) {
    f.severity.Other? && f.severity.truthy
  }

  function NormalizeSeverity(host: Host, v: Scalar): string {
    if Truthy(v) then host.lower(Strip(Str(v))) else ""
  }

  function NormalizePackage(v: Scalar): string {
    if v.Null? then "" else Strip(Str(v))
  }

  function NormalizeAdvisory(host: Host, v: Scalar): string {
    if v.Null? then "" else host.lower(Strip(Str(v)))
  }

  // ---------- exceptions ----------

  const REQUIRED_FIELDS: set<string> := {"package", "advisory", "severity", "mitigation", "expires_on"}

  predicate HasFields(r: Record) {
    forall k :: k in REQUIRED_FIELDS ==> k in r && r[k] != ""
  }

  /** What an exception allows: findings of its severity, or of any if that is blank, until it expires. */
  datatype Allowed = Allowed(severity: string, expires: int)

  datatype Entry = Malformed | Entry(key: Key, allowed: Allowed)

  function Classify(host: Host, r: Record): Entry {
    if !HasFields(r) then Malformed
    else
      var package := NormalizePackage(Text(r["package"]));
      var advisory := NormalizeAdvisory(host, Text(r["advisory"]));
      match host.fromISO(r["expires_on"])
      case None => Malformed
      case Some(date) =>
        if package == "" || advisory == "" then Malformed
        else Entry((package, advisory), Allowed(NormalizeSeverity(host, Text(r["severity"])), date))
  }

  // ---------- findings ----------

  const HIGH_SEVERITIES: set<string> := {"high", "critical"}

  function SeverityOf(host: Host, f: Finding): string {
    NormalizeSeverity(host, f.severity)
  }

  /** A named finding of high or critical severity. */
  predicate Relevant(host: Host, f: Finding) {
    SeverityOf(host, f) in HIGH_SEVERITIES && Truthy(f.name)
  }

  function KeyOf(host: Host, f: Finding): Key {
    (NormalizePackage(f.name), NormalizeAdvisory(host, f.advisory))
  }

  predicate Identified(host: Host, f: Finding) {
    KeyOf(host, f).1 != ""
  }

  /** The exception allows the finding: its severity is blank or the same, and it has not expired. */
  predicate Allows(host: Host, a: Allowed, f: Finding) {
    && (a.severity == "" || a.severity == SeverityOf(host, f))
    && a.expires >= host.today
  }

  // ---------- the quantified verdict ----------

  predicate Clash(a: Entry, b: Entry) {
    a.Entry? && b.Entry? && a.key == b.key
  }

  /** Every exception is well formed, and no two have one key. */
  ghost predicate WellFormed(host: Host, es: seq<Record>) {
    && (forall i :: 0 <= i < |es| ==> Classify(host, es[i]).Entry?)
    && (forall i, j :: 0 <= i < j < |es| ==> !Clash(Classify(host, es[i]), Classify(host, es[j])))
  }

  predicate Matches(host: Host, r: Record, f: Finding) {
    var e := Classify(host, r);
    e.Entry? && e.key == KeyOf(host, f) && Allows(host, e.allowed, f)
  }

  /** Some exception has the finding's key and allows it. */
  ghost predicate Covered(host: Host, es: seq<Record>, f: Finding) {
    exists i :: 0 <= i < |es| && Matches(host, es[i], f)
  }

  /** Finding i is the first relevant one with its key. */
  ghost predicate FirstOfKey(host: Host, fs: seq<Finding>, i: int) {
    && 0 <= i < |fs| && Relevant(host, fs[i]) && Identified(host, fs[i])
    && forall j :: 0 <= j < i && Relevant(host, fs[j]) ==> KeyOf(host, fs[j]) != KeyOf(host, fs[i])
  }

  ghost predicate AllIdentified(host: Host, fs: seq<Finding>) {
    forall i :: 0 <= i < |fs| && Relevant(host, fs[i]) ==> Identified(host, fs[i])
  }

  /** The audit passes. */
  ghost predicate Passes(host: Host, es: seq<Record>, fs: seq<Finding>) {
    && WellFormed(host, es)
    && AllIdentified(host, fs)
    && forall i :: FirstOfKey(host, fs, i) ==> Covered(host, es, fs[i])
  }

  ghost predicate Raises(fs: seq<Finding>) {
    exists i :: 0 <= i < |fs| && RaisesOn(fs[i])
  }

  datatype Outcome = Exit(code: int) | AttributeError

  /** The outcome that main owes: the quantified statement of its verdict. */
  ghost function Verdict(host: Host, es: seq<Record>, fs: seq<Finding>): Outcome {
    if Raises(fs) then AttributeError else Exit(if Passes(host, es, fs) then 0 else 1)
  }

  // ---------- the index of exceptions ----------

  /** Exception i is the first well-formed one with its key. */
  ghost predicate FirstEntry(host: Host, es: seq<Record>, i: int) {
    && 0 <= i < |es| && Classify(host, es[i]).Entry?
    && forall j :: 0 <= j < i ==> !Clash(Classify(host, es[j]), Classify(host, es[i]))
  }

  /** The index holds the keys of the well-formed exceptions, each with what its first exception allows. */
  ghost predicate IsIndex(host: Host, es: seq<Record>, index: map<Key, Allowed>) {
    && (forall i :: 0 <= i < |es| && Classify(host, es[i]).Entry? ==> Classify(host, es[i]).key in index)
    && (forall k :: k in index ==> exists i :: FirstEntry(host, es, i) && Classify(host, es[i]) == Entry(k, index[k]))
  }

  /** The exceptions determine the index. */
  lemma IndexUnique(host: Host, es: seq<Record>, a: map<Key, Allowed>, b: map<Key, Allowed>)
    requires IsIndex(host, es, a) && IsIndex(host, es, b)
    ensures a == b
  {
    hide Classify;
    forall k | k in a ensures k in b && a[k] == b[k] {
      var i :| FirstEntry(host, es, i) && Classify(host, es[i]) == Entry(k, a[k]);
      var j :| FirstEntry(host, es, j) && Classify(host, es[j]) == Entry(k, b[k]);
      assert Clash(Classify(host, es[i]), Classify(host, es[j])) && Clash(Classify(host, es[j]), Classify(host, es[i]));
    }
    forall k | k in b ensures k in a {
      var j :| FirstEntry(host, es, j) && Classify(host, es[j]) == Entry(k, b[k]);
    }
  }

  lemma EmptyIndex(host: Host, es: seq<Record>)
    requires es == []
    ensures IsIndex(host, es, map[]) && WellFormed(host, es)
  {
  }

  lemma IndexNext(host: Host, es: seq<Record>, last: Record, index: map<Key, Allowed>)
    requires IsIndex(host, es, index)
    ensures
      var e := Classify(host, last);
      IsIndex(host, es + [last], if e.Entry? && e.key !in index then index[e.key := e.allowed] else index)
  {
    hide Classify;
    var all, e := es + [last], Classify(host, last);
    assert all[|es|] == last;
    var index' := if e.Entry? && e.key !in index then index[e.key := e.allowed] else index;
    forall k | k in index'
      ensures exists i :: FirstEntry(host, all, i) && Classify(host, all[i]) == Entry(k, index'[k])
    {
      if k in index {
        var i :| FirstEntry(host, es, i) && Classify(host, es[i]) == Entry(k, index[k]);
        assert FirstEntry(host, all, i);
      } else {
        assert FirstEntry(host, all, |es|);
      }
    }
  }

  lemma WellFormedNext(host: Host, es: seq<Record>, last: Record, index: map<Key, Allowed>)
    requires IsIndex(host, es, index)
    ensures WellFormed(host, es + [last]) <==>
      WellFormed(host, es) && Classify(host, last).Entry? && Classify(host, last).key !in index
  {
    hide Classify;
    var all, e := es + [last], Classify(host, last);
    assert all[|es|] == last && forall j :: 0 <= j < |es| ==> all[j] == es[j];
    if e.Entry? && e.key in index {
      var i :| FirstEntry(host, es, i) && Classify(host, es[i]) == Entry(e.key, index[e.key]);
      assert Clash(Classify(host, all[i]), Classify(host, all[|es|]));
    }
    if WellFormed(host, es) && e.Entry? && e.key !in index {
      forall i, j | 0 <= i < j < |all| ensures !Clash(Classify(host, all[i]), Classify(host, all[j])) {
        assert j < |es| ==> !Clash(Classify(host, es[i]), Classify(host, es[j]));
      }
    }
  }

  lemma IndexStep(host: Host, es: seq<Record>, i: nat, index: map<Key, Allowed>)
    requires i < |es| && IsIndex(host, es[..i], index)
    ensures
      var e := Classify(host, es[i]);
      && (e.Malformed? || e.key in index ==> IsIndex(host, es[..i + 1], index) && !WellFormed(host, es[..i + 1]))
      && (e.Entry? && e.key !in index ==>
            && IsIndex(host, es[..i + 1], index[e.key := e.allowed])
            && (WellFormed(host, es[..i + 1]) <==> WellFormed(host, es[..i])))
      && (!WellFormed(host, es[..i]) ==> !WellFormed(host, es[..i + 1]))
  {
    hide Classify;
    assert es[..i + 1] == es[..i] + [es[i]];
    IndexNext(host, es[..i], es[i], index);
    WellFormedNext(host, es[..i], es[i], index);
    hide IsIndex, WellFormed;
  }

  /** The first loop of main. */
  method IndexExceptions(host: Host, es: seq<Record>) returns (index: map<Key, Allowed>, errors: nat)
    ensures IsIndex(host, es, index)
    ensures errors == 0 <==> WellFormed(host, es)
  {
    hide *;
    index, errors := map[], 0;
    EmptyIndex(host, es[..0]);
    for i := 0 to |es|
      invariant IsIndex(host, es[..i], index)
      invariant errors == 0 <==> WellFormed(host, es[..i])
    {
      IndexStep(host, es, i, index);
      match Classify(host, es[i]) {
        case Malformed => errors := errors + 1;
        case Entry(key, allowed) =>
          if key in index {
            errors := errors + 1;
          } else {
            index := index[key := allowed];
          }
      }
    }
    assert es[..|es|] == es;
  }

  // ---------- the scan of findings ----------

  /** What main reports about the findings; `missing` and `expired` are listed after the other errors. */
  datatype Report = Report(unidentified: seq<nat>, mismatched: seq<nat>, missing: seq<nat>, expired: seq<nat>)

  /** The positions below n that satisfy p, in order. */
  ghost function Positions(n: nat, p: nat -> bool): seq<nat> {
    if n == 0 then [] else Positions(n - 1, p) + if p(n - 1) then [n - 1] else []
  }

  lemma {:induction false} NoPositions(n: nat, p: nat -> bool)
    ensures Positions(n, p) == [] <==> forall i: nat :: i < n ==> !p(i)
  {
    if n == 0 {
    } else {
      NoPositions(n - 1, p);
    }
  }

  ghost predicate IsUnidentified(host: Host, fs: seq<Finding>, i: nat) {
    i < |fs| && Relevant(host, fs[i]) && !Identified(host, fs[i])
  }

  ghost predicate IsMissing(host: Host, index: map<Key, Allowed>, fs: seq<Finding>, i: nat) {
    FirstOfKey(host, fs, i) && KeyOf(host, fs[i]) !in index
  }

  ghost predicate IsMismatched(host: Host, index: map<Key, Allowed>, fs: seq<Finding>, i: nat) {
    FirstOfKey(host, fs, i) && KeyOf(host, fs[i]) in index &&
    var a := index[KeyOf(host, fs[i])]; a.severity != "" && a.severity != SeverityOf(host, fs[i])
  }

  ghost predicate IsExpired(host: Host, index: map<Key, Allowed>, fs: seq<Finding>, i: nat) {
    FirstOfKey(host, fs, i) && KeyOf(host, fs[i]) in index && index[KeyOf(host, fs[i])].expires < host.today
  }

  ghost function Unidentified(host: Host, fs: seq<Finding>): nat -> bool {
    (i: nat) => IsUnidentified(host, fs, i)
  }

  ghost function Mismatched(host: Host, index: map<Key, Allowed>, fs: seq<Finding>): nat -> bool {
    (i: nat) => IsMismatched(host, index, fs, i)
  }

  ghost function Missing(host: Host, index: map<Key, Allowed>, fs: seq<Finding>): nat -> bool {
    (i: nat) => IsMissing(host, index, fs, i)
  }

  ghost function Expired(host: Host, index: map<Key, Allowed>, fs: seq<Finding>): nat -> bool {
    (i: nat) => IsExpired(host, index, fs, i)
  }

  /** The report on the first n findings. */
  ghost function ReportOf(host: Host, index: map<Key, Allowed>, fs: seq<Finding>, n: nat): Report {
    Report(
      Positions(n, Unidentified(host, fs)),
      Positions(n, Mismatched(host, index, fs)),
      Positions(n, Missing(host, index, fs)),
      Positions(n, Expired(host, index, fs)))
  }

  function With(s: seq<nat>, i: nat, b: bool): seq<nat> {
    if b then s + [i] else s
  }

  lemma ReportStep(host: Host, index: map<Key, Allowed>, fs: seq<Finding>, i: nat)
    ensures
      var r := ReportOf(host, index, fs, i);
      ReportOf(host, index, fs, i + 1) == Report(
        With(r.unidentified, i, IsUnidentified(host, fs, i)),
        With(r.mismatched, i, IsMismatched(host, index, fs, i)),
        With(r.missing, i, IsMissing(host, index, fs, i)),
        With(r.expired, i, IsExpired(host, index, fs, i)))
  {
    hide IsUnidentified, IsMismatched, IsMissing, IsExpired;
  }

  /** The keys of the relevant, identified findings so far. */
  ghost predicate IsSeen(host: Host, fs: seq<Finding>, n: nat, seen: set<Key>) {
    forall k :: k in seen <==>
      exists j :: 0 <= j < n && j < |fs| && Relevant(host, fs[j]) && Identified(host, fs[j]) && KeyOf(host, fs[j]) == k
  }

  lemma SeenStep(host: Host, fs: seq<Finding>, i: nat, seen: set<Key>)
    requires i < |fs| && IsSeen(host, fs, i, seen)
    ensures
      var f := fs[i];
      if Relevant(host, f) && Identified(host, f) then
        && IsSeen(host, fs, i + 1, seen + {KeyOf(host, f)})
        && (FirstOfKey(host, fs, i) <==> KeyOf(host, f) !in seen)
      else IsSeen(host, fs, i + 1, seen) && !FirstOfKey(host, fs, i)
  {
    hide Relevant, KeyOf;
    var f := fs[i];
    if Relevant(host, f) && Identified(host, f) {
      assert forall j :: 0 <= j < i && Relevant(host, fs[j]) && KeyOf(host, fs[j]) == KeyOf(host, f) ==>
        Identified(host, fs[j]);
      var seen' := seen + {KeyOf(host, f)};
      forall k ensures k in seen' <==>
        exists j :: 0 <= j < i + 1 && j < |fs| && Relevant(host, fs[j]) && Identified(host, fs[j])
                    && KeyOf(host, fs[j]) == k
      {
      }
    }
  }

  lemma NotWellFormed(host: Host, es: seq<Record>, fs: seq<Finding>)
    ensures Passes(host, es, fs) ==> WellFormed(host, es)
  {
  }

  lemma RaisesStep(fs: seq<Finding>, i: nat)
    requires i < |fs| && !Raises(fs[..i])
    ensures RaisesOn(fs[i]) ==> Raises(fs)
    ensures !RaisesOn(fs[i]) ==> !Raises(fs[..i + 1])
  {
  }

  /** The body of the scan, for a severity that can be normalized. */
  method ScanFinding(
    host: Host, exceptionIndex: map<Key, Allowed>, fs: seq<Finding>, i: nat, seen: set<Key>, report: Report)
    returns (seen': set<Key>, report': Report)
    requires i < |fs| && IsSeen(host, fs, i, seen) && report == ReportOf(host, exceptionIndex, fs, i)
    ensures IsSeen(host, fs, i + 1, seen') && report' == ReportOf(host, exceptionIndex, fs, i + 1)
  {
    seen', report' := seen, report;
    var f := fs[i];
    SeenStep(host, fs, i, seen);
    ReportStep(host, exceptionIndex, fs, i);
    hide IsSeen, ReportOf, FirstOfKey, NormalizeSeverity, NormalizePackage, NormalizeAdvisory;
    var severity := SeverityOf(host, f);
    if severity !in HIGH_SEVERITIES || !Truthy(f.name) {
      return;
    }
    if !Identified(host, f) {
      report' := report'.(unidentified := report'.unidentified + [i]);
      return;
    }
    var key := KeyOf(host, f);
    if key in seen {
      return;
    }
    seen' := seen + {key};
    if key !in exceptionIndex {
      report' := report'.(missing := report'.missing + [i]);
      return;
    }
    var exc := exceptionIndex[key];
    if exc.severity != "" && exc.severity != severity {
      report' := report'.(mismatched := report'.mismatched + [i]);
    }
    if exc.expires < host.today {
      report' := report'.(expired := report'.expired + [i]);
    }
  }

  ghost predicate IsReported(host: Host, index: map<Key, Allowed>, fs: seq<Finding>, i: nat) {
    IsMissing(host, index, fs, i) || IsMismatched(host, index, fs, i) || IsExpired(host, index, fs, i)
  }

  /** The report is empty exactly when no finding is unidentified and none is reported. */
  lemma EmptyReport(host: Host, index: map<Key, Allowed>, fs: seq<Finding>)
    ensures
      ReportOf(host, index, fs, |fs|) == Report([], [], [], []) <==>
      forall i: nat :: i < |fs| ==> !IsUnidentified(host, fs, i) && !IsReported(host, index, fs, i)
  {
    NoPositions(|fs|, Unidentified(host, fs));
    NoPositions(|fs|, Mismatched(host, index, fs));
    NoPositions(|fs|, Missing(host, index, fs));
    NoPositions(|fs|, Expired(host, index, fs));
    var r := ReportOf(host, index, fs, |fs|);
    hide IsUnidentified, IsMismatched, IsMissing, IsExpired, Positions;
    if r == Report([], [], [], []) {
      forall i: nat | i < |fs| ensures !IsUnidentified(host, fs, i) && !IsReported(host, index, fs, i) {
        assert !Unidentified(host, fs)(i) && !Mismatched(host, index, fs)(i);
        assert !Missing(host, index, fs)(i) && !Expired(host, index, fs)(i);
      }
    }
    if forall i: nat :: i < |fs| ==> !IsUnidentified(host, fs, i) && !IsReported(host, index, fs, i) {
      forall i: nat | i < |fs|
        ensures !Unidentified(host, fs)(i) && !Mismatched(host, index, fs)(i)
        ensures !Missing(host, index, fs)(i) && !Expired(host, index, fs)(i)
      {
        assert !IsUnidentified(host, fs, i) && !IsReported(host, index, fs, i);
      }
      assert r.unidentified == [] && r.mismatched == [] && r.missing == [] && r.expired == [];
    }
  }

  /** With distinct keys, the index holds the one exception that can allow a finding. */
  lemma CoveredByIndex(host: Host, es: seq<Record>, index: map<Key, Allowed>, f: Finding)
    requires IsIndex(host, es, index) && WellFormed(host, es)
    ensures Covered(host, es, f) <==> KeyOf(host, f) in index && Allows(host, index[KeyOf(host, f)], f)
  {
    hide Classify, KeyOf, Allows;
    var k := KeyOf(host, f);
    if k in index {
      var i :| FirstEntry(host, es, i) && Classify(host, es[i]) == Entry(k, index[k]);
      assert Matches(host, es[i], f) <==> Allows(host, index[k], f);
      forall j | 0 <= j < |es| && Matches(host, es[j], f) ensures j == i {
        assert Clash(Classify(host, es[i]), Classify(host, es[j]));
      }
    }
  }

  lemma ReportedAt(host: Host, es: seq<Record>, index: map<Key, Allowed>, fs: seq<Finding>, i: nat)
    requires IsIndex(host, es, index) && WellFormed(host, es) && i < |fs|
    ensures IsReported(host, index, fs, i) <==> FirstOfKey(host, fs, i) && !Covered(host, es, fs[i])
  {
    CoveredByIndex(host, es, index, fs[i]);
    hide FirstOfKey, Covered, KeyOf;
  }

  lemma AllIdentifiedAt(host: Host, fs: seq<Finding>)
    ensures AllIdentified(host, fs) <==> forall i: nat :: i < |fs| ==> !IsUnidentified(host, fs, i)
  {
    hide Relevant, Identified;
    if forall i: nat :: i < |fs| ==> !IsUnidentified(host, fs, i) {
      forall i | 0 <= i < |fs| && Relevant(host, fs[i]) ensures Identified(host, fs[i]) {
        assert !IsUnidentified(host, fs, i);
      }
    }
  }

  /** Nothing to report, and no error among the exceptions, is what passing means. */
  lemma ReportMeaning(host: Host, es: seq<Record>, index: map<Key, Allowed>, fs: seq<Finding>)
    requires IsIndex(host, es, index) && WellFormed(host, es)
    ensures ReportOf(host, index, fs, |fs|) == Report([], [], [], []) <==> Passes(host, es, fs)
  {
    EmptyReport(host, index, fs);
    AllIdentifiedAt(host, fs);
    forall i: nat | i < |fs|
      ensures IsReported(host, index, fs, i) <==> FirstOfKey(host, fs, i) && !Covered(host, es, fs[i])
    {
      ReportedAt(host, es, index, fs, i);
    }
    assert forall i :: FirstOfKey(host, fs, i) ==> 0 <= i < |fs|;
    hide FirstOfKey, Covered, IsUnidentified, AllIdentified, IsReported, WellFormed, ReportOf;
    if ReportOf(host, index, fs, |fs|) == Report([], [], [], []) {
      forall i | FirstOfKey(host, fs, i) ensures Covered(host, es, fs[i]) {
        assert !IsReported(host, index, fs, i);
      }
    }
  }

  /**
   main, after the files are read: raises AttributeError exactly when a severity is neither
   a string nor false, and otherwise exits with 0 exactly when the audit passes, and with 1
   when it does not; the findings it reports are those that fail, in order.
   */
  method CheckAudit(host: Host, es: seq<Record>, fs: seq<Finding>)
    returns (outcome: Outcome, ghost index: map<Key, Allowed>, report: Report)
    ensures outcome == Verdict(host, es, fs)
    ensures IsIndex(host, es, index)
    ensures !Raises(fs) ==> report == ReportOf(host, index, fs, |fs|)
  {
    var errors;
    var exceptionIndex;
    exceptionIndex, errors := IndexExceptions(host, es);
    index := exceptionIndex;
    report := Report([], [], [], []);
    var seen: set<Key> := {};
    for i := 0 to |fs|
      invariant !Raises(fs[..i])
      invariant IsSeen(host, fs, i, seen)
      invariant report == ReportOf(host, index, fs, i)
    {
      var f := fs[i];
      RaisesStep(fs, i);
      SeenStep(host, fs, i, seen);
      ReportStep(host, index, fs, i);
      hide *;
      if RaisesOn(f) {
        return AttributeError, index, report;
      }
      seen, report := ScanFinding(host, exceptionIndex, fs, i, seen, report);
    }
    assert fs[..|fs|] == fs;
    if errors == 0 { ReportMeaning(host, es, index, fs); }
    NotWellFormed(host, es, fs);
    var clean := errors == 0 && report == Report([], [], [], []);
    return Exit(if clean then 0 else 1), index, report;
  }
}
