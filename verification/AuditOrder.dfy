/** When the verdict of the audit-exception checker depends on the order of its inputs. */
module AuditOrder {
  import opened Common
  import opened PyText
  import opened ExceptionsParser
  import opened AuditVerdict

  /** Two lists hold the same elements, each as often. */
  ghost predicate Permuted<T>(a: seq<T>, b: seq<T>) {
    multiset(a) == multiset(b)
  }

  lemma PermutedMembers<T>(a: seq<T>, b: seq<T>)
    requires Permuted(a, b)
    ensures forall x :: x in a <==> x in b
  {
    forall x ensures x in a <==> x in b {
      assert x in multiset(a) <==> x in multiset(b);
    }
  }

  // ---------- permuting the exceptions ----------

  /** An element that occurs at two places of a list occurs at two places of any permutation of it. */
  lemma TwoPlaces<T>(a: seq<T>, x: T) returns (i: int, j: int)
    requires multiset(a)[x] >= 2
    ensures 0 <= i < j < |a| && a[i] == x && a[j] == x
  {
    i :| 0 <= i < |a| && a[i] == x;
    var rest := a[..i] + a[i + 1..];
    assert a == a[..i] + [a[i]] + a[i + 1..];
    assert multiset(a) == multiset(rest) + multiset{x};
    assert x in rest;
    var k :| 0 <= k < |rest| && rest[k] == x;
    j := if k < i then k else k + 1;
    if j < i { i, j := j, i; }
  }

  lemma PlacesCount<T>(a: seq<T>, i: int, j: int)
    requires 0 <= i < j < |a| && a[i] == a[j]
    ensures multiset(a)[a[i]] >= 2
  {
    assert a == a[..i] + [a[i]] + a[i + 1..j] + [a[j]] + a[j + 1..];
  }

  lemma NoClash(host: Host, es: seq<Record>, es': seq<Record>, i: int, j: int)
    requires Permuted(es, es') && WellFormed(host, es) && 0 <= i < j < |es'|
    ensures !Clash(Classify(host, es'[i]), Classify(host, es'[j]))
  {
    hide Classify;
    PermutedMembers(es, es');
    var p, q;
    if es'[i] == es'[j] {
      PlacesCount(es', i, j);
      p, q := TwoPlaces(es, es'[i]);
    } else {
      assert es'[i] in es && es'[j] in es;
      p :| 0 <= p < |es| && es[p] == es'[i];
      q :| 0 <= q < |es| && es[q] == es'[j];
    }
    assert p < q || q < p;
  }

  lemma WellFormedPermuted(host: Host, es: seq<Record>, es': seq<Record>)
    requires Permuted(es, es') && WellFormed(host, es)
    ensures WellFormed(host, es')
  {
    hide Classify;
    PermutedMembers(es, es');
    forall i | 0 <= i < |es'| ensures Classify(host, es'[i]).Entry? {
      assert es'[i] in es;
    }
    forall i, j | 0 <= i < j < |es'| ensures !Clash(Classify(host, es'[i]), Classify(host, es'[j])) {
      NoClash(host, es, es', i, j);
    }
  }

  lemma CoveredPermuted(host: Host, es: seq<Record>, es': seq<Record>, f: Finding)
    requires Permuted(es, es') && Covered(host, es, f)
    ensures Covered(host, es', f)
  {
    hide Matches;
    PermutedMembers(es, es');
    var i :| 0 <= i < |es| && Matches(host, es[i], f);
    assert es[i] in es';
  }

  lemma FirstInRange(host: Host, fs: seq<Finding>, i: int)
    requires FirstOfKey(host, fs, i)
    ensures 0 <= i < |fs| && Relevant(host, fs[i]) && Identified(host, fs[i])
  {
  }

  lemma PassesPermutedExceptions(host: Host, es: seq<Record>, es': seq<Record>, fs: seq<Finding>)
    requires Permuted(es, es')
    ensures Passes(host, es, fs) ==> Passes(host, es', fs)
  {
    if Passes(host, es, fs) {
      WellFormedPermuted(host, es, es');
      hide WellFormed, Covered, FirstOfKey, AllIdentified;
      forall i | FirstOfKey(host, fs, i) ensures Covered(host, es', fs[i]) {
        FirstInRange(host, fs, i);
        CoveredPermuted(host, es, es', fs[i]);
      }
    }
  }

  /** The order of the exceptions never matters. */
  lemma ExceptionOrderIrrelevant(host: Host, es: seq<Record>, es': seq<Record>, fs: seq<Finding>)
    requires Permuted(es, es')
    ensures Passes(host, es, fs) <==> Passes(host, es', fs)
  {
    PassesPermutedExceptions(host, es, es', fs);
    PassesPermutedExceptions(host, es', es, fs);
  }

  // ---------- permuting the findings ----------

  /** What every order needs: well-formed exceptions, and an advisory id for each relevant finding. */
  ghost predicate Sound(host: Host, es: seq<Record>, fs: seq<Finding>) {
    WellFormed(host, es) && forall f :: f in fs && Relevant(host, f) ==> Identified(host, f)
  }

  /** Every relevant finding is covered. */
  ghost predicate AllCovered(host: Host, es: seq<Record>, fs: seq<Finding>) {
    forall f :: f in fs && Relevant(host, f) ==> Covered(host, es, f)
  }

  ghost predicate KeyCovered(host: Host, es: seq<Record>, fs: seq<Finding>, f: Finding) {
    exists g :: g in fs && Relevant(host, g) && KeyOf(host, g) == KeyOf(host, f) && Covered(host, es, g)
  }

  /** Of the relevant findings with one key, at least one is covered. */
  ghost predicate EveryKeyCovered(host: Host, es: seq<Record>, fs: seq<Finding>) {
    forall f :: f in fs && Relevant(host, f) ==> KeyCovered(host, es, fs, f)
  }

  /** Relevant findings with one key have one severity. */
  ghost predicate OneSeverityPerKey(host: Host, fs: seq<Finding>) {
    forall f, g :: f in fs && g in fs && Relevant(host, f) && Relevant(host, g) && KeyOf(host, f) == KeyOf(host, g) ==>
      SeverityOf(host, f) == SeverityOf(host, g)
  }

  /** The first relevant finding with the key of `f`. */
  lemma FirstWithKey(host: Host, fs: seq<Finding>, f: Finding) returns (i: int)
    requires f in fs && Relevant(host, f) && Identified(host, f)
    ensures FirstOfKey(host, fs, i) && KeyOf(host, fs[i]) == KeyOf(host, f)
  {
    hide Relevant, KeyOf;
    i :| 0 <= i < |fs| && fs[i] == f;
    while exists j :: 0 <= j < i && Relevant(host, fs[j]) && KeyOf(host, fs[j]) == KeyOf(host, f)
      invariant 0 <= i < |fs| && Relevant(host, fs[i]) && KeyOf(host, fs[i]) == KeyOf(host, f)
      decreases i
    {
      var j :| 0 <= j < i && Relevant(host, fs[j]) && KeyOf(host, fs[j]) == KeyOf(host, f);
      i := j;
    }
  }

  lemma PassesMeans(host: Host, es: seq<Record>, fs: seq<Finding>)
    requires Passes(host, es, fs)
    ensures Sound(host, es, fs) && EveryKeyCovered(host, es, fs)
  {
    hide WellFormed, Covered, Relevant, KeyOf;
    forall f | f in fs && Relevant(host, f) ensures Identified(host, f) && KeyCovered(host, es, fs, f) {
      var k :| 0 <= k < |fs| && fs[k] == f;
      assert Identified(host, fs[k]);
      var i := FirstWithKey(host, fs, f);
      assert fs[i] in fs;
    }
  }

  lemma AllCoveredPasses(host: Host, es: seq<Record>, fs: seq<Finding>)
    requires Sound(host, es, fs) && AllCovered(host, es, fs)
    ensures Passes(host, es, fs)
  {
    hide WellFormed, Covered, Relevant, KeyOf, Identified;
    forall i | FirstOfKey(host, fs, i) ensures Covered(host, es, fs[i]) {
      assert fs[i] in fs;
    }
  }

  ghost function Ok(host: Host, es: seq<Record>): Finding -> bool {
    f => !Relevant(host, f) || Covered(host, es, f)
  }

  ghost function NotOk(host: Host, es: seq<Record>): Finding -> bool {
    f => Relevant(host, f) && !Covered(host, es, f)
  }

  ghost function CoveredFirst(host: Host, es: seq<Record>, fs: seq<Finding>): seq<Finding> {
    Filter(fs, Ok(host, es)) + Filter(fs, NotOk(host, es))
  }

  ghost function UncoveredFirst(host: Host, es: seq<Record>, fs: seq<Finding>): seq<Finding> {
    Filter(fs, NotOk(host, es)) + Filter(fs, Ok(host, es))
  }

  lemma NothingFiltered(p: Finding -> bool)
    ensures Filter([], p) == []
  {
  }

  lemma {:induction false} FilterSplits(fs: seq<Finding>, p: Finding -> bool, q: Finding -> bool)
    requires forall f :: q(f) <==> !p(f)
    ensures multiset(Filter(fs, p)) + multiset(Filter(fs, q)) == multiset(fs)
  {
    hide Filter;
    if fs == [] {
      NothingFiltered(p);
      NothingFiltered(q);
    } else {
      var init, last := fs[..|fs| - 1], fs[|fs| - 1];
      assert fs == init + [last];
      FilterExtend(init, last, p);
      FilterExtend(init, last, q);
      FilterSplits(init, p, q);
    }
  }

  lemma Reordered(host: Host, es: seq<Record>, fs: seq<Finding>)
    ensures Permuted(fs, CoveredFirst(host, es, fs)) && Permuted(fs, UncoveredFirst(host, es, fs))
  {
    hide Relevant, Covered;
    FilterSplits(fs, Ok(host, es), NotOk(host, es));
  }

  lemma SoundPermuted(host: Host, es: seq<Record>, fs: seq<Finding>, fs': seq<Finding>)
    requires Permuted(fs, fs')
    ensures Sound(host, es, fs) <==> Sound(host, es, fs')
    ensures AllCovered(host, es, fs) <==> AllCovered(host, es, fs')
    ensures EveryKeyCovered(host, es, fs) <==> EveryKeyCovered(host, es, fs')
  {
    PermutedMembers(fs, fs');
    hide WellFormed, Covered, Relevant, KeyOf, Identified;
    assert forall f :: KeyCovered(host, es, fs, f) <==> KeyCovered(host, es, fs', f);
    hide KeyCovered;
  }

  /** If some covered finding with the key of `fs[i]` stands in the first part, so does `fs[i]` itself. */
  lemma FirstIsEarly(host: Host, ok: seq<Finding>, bad: seq<Finding>, i: int, g: Finding)
    requires FirstOfKey(host, ok + bad, i)
    requires g in ok && Relevant(host, g) && KeyOf(host, g) == KeyOf(host, (ok + bad)[i])
    ensures (ok + bad)[i] in ok
  {
    hide Relevant, KeyOf;
    var k :| 0 <= k < |ok| && ok[k] == g;
    var fs := ok + bad;
    assert fs[k] == g;
    assert fs[i] == ok[i];
  }

  lemma FirstIsCovered(host: Host, es: seq<Record>, fs: seq<Finding>, ok: seq<Finding>, bad: seq<Finding>, i: int)
    requires EveryKeyCovered(host, es, fs) && Permuted(fs, ok + bad)
    requires forall f :: f in ok <==> f in fs && Ok(host, es)(f)
    requires FirstOfKey(host, ok + bad, i)
    ensures Covered(host, es, (ok + bad)[i])
  {
    hide Relevant, KeyOf, Covered;
    PermutedMembers(fs, ok + bad);
    var f := (ok + bad)[i];
    assert f in fs && KeyCovered(host, es, fs, f);
    var g :| g in fs && Relevant(host, g) && KeyOf(host, g) == KeyOf(host, f) && Covered(host, es, g);
    assert Ok(host, es)(g);
    FirstIsEarly(host, ok, bad, i, g);
    assert Ok(host, es)(f);
  }

  lemma PassesIntro(host: Host, es: seq<Record>, fs: seq<Finding>)
    requires Sound(host, es, fs)
    requires forall i :: FirstOfKey(host, fs, i) ==> 0 <= i < |fs| && Covered(host, es, fs[i])
    ensures Passes(host, es, fs)
  {
    hide WellFormed, Covered, Relevant, KeyOf, Identified, FirstOfKey;
  }

  lemma UnfoldCoveredFirst(host: Host, es: seq<Record>, fs: seq<Finding>)
    ensures CoveredFirst(host, es, fs) == Filter(fs, Ok(host, es)) + Filter(fs, NotOk(host, es))
  {
  }

  /** With covered findings first, the audit passes as soon as every key is covered once. */
  lemma CoveredFirstPasses(host: Host, es: seq<Record>, fs: seq<Finding>)
    requires Sound(host, es, fs) && EveryKeyCovered(host, es, fs)
    ensures Passes(host, es, CoveredFirst(host, es, fs))
  {
    hide *;
    var ok, bad := Filter(fs, Ok(host, es)), Filter(fs, NotOk(host, es));
    Reordered(host, es, fs);
    assert CoveredFirst(host, es, fs) == ok + bad by { UnfoldCoveredFirst(host, es, fs); }
    SoundPermuted(host, es, fs, ok + bad);
    FilterContents(fs, Ok(host, es), ok);
    FilterContents(fs, NotOk(host, es), bad);
    forall i | FirstOfKey(host, ok + bad, i) ensures 0 <= i < |ok + bad| && Covered(host, es, (ok + bad)[i]) {
      FirstInRange(host, ok + bad, i);
      FirstIsCovered(host, es, fs, ok, bad, i);
    }
    PassesIntro(host, es, ok + bad);
  }

  /** With an uncovered finding first, the audit fails. */
  lemma UncoveredFirstFails(host: Host, es: seq<Record>, fs: seq<Finding>)
    requires Sound(host, es, fs) && !AllCovered(host, es, fs)
    ensures !Passes(host, es, UncoveredFirst(host, es, fs))
  {
    var bad := Filter(fs, NotOk(host, es));
    var fs' := UncoveredFirst(host, es, fs);
    FilterContents(fs, NotOk(host, es), bad);
    hide WellFormed, Covered, Relevant, KeyOf, Identified, Filter;
    var f :| f in fs && Relevant(host, f) && !Covered(host, es, f);
    assert f in bad && bad[0] in bad;
    assert fs'[0] == bad[0] && bad[0] in fs;
    assert FirstOfKey(host, fs', 0);
  }

  /** Some order of the findings passes exactly when each key is covered at least once. */
  lemma SomeOrderPasses(host: Host, es: seq<Record>, fs: seq<Finding>)
    ensures (exists fs' :: Permuted(fs, fs') && Passes(host, es, fs')) <==>
            Sound(host, es, fs) && EveryKeyCovered(host, es, fs)
  {
    hide Passes, Sound, EveryKeyCovered, CoveredFirst;
    if Sound(host, es, fs) && EveryKeyCovered(host, es, fs) {
      CoveredFirstPasses(host, es, fs);
      Reordered(host, es, fs);
    }
    forall fs' | Permuted(fs, fs') && Passes(host, es, fs')
      ensures Sound(host, es, fs) && EveryKeyCovered(host, es, fs)
    {
      PassesMeans(host, es, fs');
      SoundPermuted(host, es, fs, fs');
    }
  }

  lemma NotSoundFails(host: Host, es: seq<Record>, fs: seq<Finding>)
    requires !Sound(host, es, fs)
    ensures !Passes(host, es, fs) && Permuted(fs, fs)
  {
    hide Passes, Sound, EveryKeyCovered;
    if Passes(host, es, fs) { PassesMeans(host, es, fs); }
  }

  /** Every order of the findings passes exactly when every relevant finding is covered. */
  lemma EveryOrderPasses(host: Host, es: seq<Record>, fs: seq<Finding>)
    ensures (forall fs' :: Permuted(fs, fs') ==> Passes(host, es, fs')) <==>
            Sound(host, es, fs) && AllCovered(host, es, fs)
  {
    hide Passes, Sound, AllCovered, EveryKeyCovered, UncoveredFirst;
    if Sound(host, es, fs) && AllCovered(host, es, fs) {
      forall fs' | Permuted(fs, fs') ensures Passes(host, es, fs') {
        SoundPermuted(host, es, fs, fs');
        AllCoveredPasses(host, es, fs');
      }
    } else {
      Reordered(host, es, fs);
      if !Sound(host, es, fs) {
        NotSoundFails(host, es, fs);
      } else {
        UncoveredFirstFails(host, es, fs);
      }
    }
  }

  ghost predicate OrderIrrelevant(host: Host, es: seq<Record>, fs: seq<Finding>) {
    forall fs' :: Permuted(fs, fs') ==> (Passes(host, es, fs') <==> Passes(host, es, fs))
  }

  /**
   Exactly when the order of the findings is irrelevant: no order can pass (an error that
   every order has, or a key that no finding has covered), or every relevant finding is covered.
   */
  lemma FindingOrderIrrelevantIff(host: Host, es: seq<Record>, fs: seq<Finding>)
    ensures OrderIrrelevant(host, es, fs) <==>
            !Sound(host, es, fs) || !EveryKeyCovered(host, es, fs) || AllCovered(host, es, fs)
  {
    hide Passes, Sound, AllCovered, EveryKeyCovered;
    SomeOrderPasses(host, es, fs);
    EveryOrderPasses(host, es, fs);
    assert Permuted(fs, fs);
  }

  // ---------- an input on which the order matters ----------

  const EXPIRY := "2999-12-31"

  const EXAMPLE: Record :=
    map["package" := "xlsx", "advisory" := "a1", "severity" := "high", "mitigation" := "none", "expires_on" := EXPIRY]

  function ExampleFinding(severity: string): Finding {
    Finding(Text("xlsx"), Text(severity), Text("a1"))
  }

  /** The two findings share a key, and only one severity is allowed. */
  lemma ExampleFacts(host: Host, severity: string, day: int)
    requires severity in HIGH_SEVERITIES && host.lower(severity) == severity
    requires host.lower("high") == "high" && host.lower("a1") == "a1"
    requires host.fromISO(EXPIRY) == Some(day) && day >= host.today
    ensures Relevant(host, ExampleFinding(severity))
    ensures KeyOf(host, ExampleFinding(severity)) == ("xlsx", "a1")
    ensures Classify(host, EXAMPLE) == Entry(("xlsx", "a1"), Allowed("high", day))
    ensures Covered(host, [EXAMPLE], ExampleFinding(severity)) <==> severity == "high"
  {
    StripTrimmed("xlsx");
    StripTrimmed("a1");
    StripTrimmed("high");
    StripTrimmed(severity);
    hide Strip, LStrip, RStrip;
    assert HasFields(EXAMPLE);
    var f := ExampleFinding(severity);
    assert SeverityOf(host, f) == severity;
    hide Classify, KeyOf, SeverityOf;
    assert Matches(host, [EXAMPLE][0], f) <==> severity == "high";
  }

  /** The same two findings pass in one order and fail in the other. */
  lemma OrderMatters(host: Host, day: int)
    requires host.lower("high") == "high" && host.lower("critical") == "critical" && host.lower("a1") == "a1"
    requires host.fromISO(EXPIRY) == Some(day) && day >= host.today
    ensures Passes(host, [EXAMPLE], [ExampleFinding("high"), ExampleFinding("critical")])
    ensures !Passes(host, [EXAMPLE], [ExampleFinding("critical"), ExampleFinding("high")])
  {
    ExampleFacts(host, "high", day);
    ExampleFacts(host, "critical", day);
    hide Relevant, KeyOf, Covered, Classify;
    var fs := [ExampleFinding("high"), ExampleFinding("critical")];
    assert !FirstOfKey(host, fs, 1) by { assert KeyOf(host, fs[0]) == KeyOf(host, fs[1]); }
    assert FirstOfKey(host, [ExampleFinding("critical"), ExampleFinding("high")], 0);
  }

  lemma SameCover(host: Host, es: seq<Record>, f: Finding, g: Finding)
    requires KeyOf(host, f) == KeyOf(host, g) && SeverityOf(host, f) == SeverityOf(host, g) && Covered(host, es, g)
    ensures Covered(host, es, f)
  {
    hide Classify, KeyOf, SeverityOf;
    var i :| 0 <= i < |es| && Matches(host, es[i], g);
    assert Matches(host, es[i], f);
  }

  lemma OneSeverityAllCovered(host: Host, es: seq<Record>, fs: seq<Finding>)
    requires OneSeverityPerKey(host, fs) && EveryKeyCovered(host, es, fs)
    ensures AllCovered(host, es, fs)
  {
    hide Relevant, KeyOf, SeverityOf, Covered;
    forall f | f in fs && Relevant(host, f) ensures Covered(host, es, f) {
      assert KeyCovered(host, es, fs, f);
      var g :| g in fs && Relevant(host, g) && KeyOf(host, g) == KeyOf(host, f) && Covered(host, es, g);
      SameCover(host, es, f, g);
    }
  }

  /** If each key carries one severity, the order is irrelevant. */
  lemma OneSeverityOrderIrrelevant(host: Host, es: seq<Record>, fs: seq<Finding>)
    requires OneSeverityPerKey(host, fs)
    ensures OrderIrrelevant(host, es, fs)
  {
    hide Sound, OrderIrrelevant, EveryKeyCovered, AllCovered, OneSeverityPerKey;
    FindingOrderIrrelevantIff(host, es, fs);
    if EveryKeyCovered(host, es, fs) {
      OneSeverityAllCovered(host, es, fs);
    }
  }

  lemma RaisesPermuted(fs: seq<Finding>, fs': seq<Finding>)
    requires Permuted(fs, fs')
    ensures Raises(fs) ==> Raises(fs')
  {
    PermutedMembers(fs, fs');
    if Raises(fs) {
      var i :| 0 <= i < |fs| && RaisesOn(fs[i]);
      assert fs[i] in fs';
    }
  }

  /** The exit code, too: it is unchanged by permuting the exceptions, and the findings under that condition. */
  lemma VerdictPermuted(host: Host, es: seq<Record>, es': seq<Record>, fs: seq<Finding>, fs': seq<Finding>)
    requires Permuted(es, es') && Permuted(fs, fs') && OneSeverityPerKey(host, fs)
    ensures Verdict(host, es, fs) == Verdict(host, es', fs')
  {
    hide Passes, OneSeverityPerKey;
    ExceptionOrderIrrelevant(host, es, es', fs');
    OneSeverityOrderIrrelevant(host, es, fs);
    RaisesPermuted(fs, fs');
    RaisesPermuted(fs', fs);
  }
}
