/** The result screen (src/components/screens/RiskResultScreen.tsx): the
    display settings chosen by the risk level, and the list of symptom
    contributions handed to the chart, sorted from largest to smallest value
    with ties left in their original order. */
module RiskResult {
  import opened SymptomModel
  import opened ContributorChart

  /** The five symptoms the chart shows, in the order the list is written. */
  datatype Symptom = SeverePain | PainOutsidePeriods | Gastrointestinal | Fatigue | IrregularCycles

  /** The label shown beside each symptom's bar. */
  function LabelText(k: Symptom): string {
    match k
    case SeverePain => "Severe menstrual pain"
    case PainOutsidePeriods => "Pain outside periods"
    case Gastrointestinal => "Gastrointestinal symptoms"
    case Fatigue => "Persistent fatigue"
    case IrregularCycles => "Irregular cycles"
  }

  /** The labels are pairwise different, so each bar has its own key. */
  lemma LabelTextInjective(a: Symptom, b: Symptom)
    requires a != b
    ensures LabelText(a) != LabelText(b)
  {
  }

  /** The badge label chosen by the risk level. */
  function RiskLabel(level: RiskLevel): string {
    match level
    case Low => "Low Risk"
    case Medium => "Medium Risk"
    case High => "High Risk"
  }

  /** Each level has its own badge, so the three outcomes can be told apart. */
  lemma RiskLabelsDistinct(a: RiskLevel, b: RiskLevel)
    requires a != b
    ensures RiskLabel(a) != RiskLabel(b)
  {
  }

  /** Whether the answers show the symptom: severity above 3 for the pain
      entry, the answer itself for the four yes/no symptoms. */
  predicate Present(d: SymptomData, k: Symptom) {
    match k
    case SeverePain => d.painSeverity > 3
    case PainOutsidePeriods => d.painOutsidePeriods
    case Gastrointestinal => d.giSymptoms
    case Fatigue => d.fatigue
    case IrregularCycles => d.irregularCycles
  }

  /** The contributions in the order the list literal gives them, before
      sorting. Severity counts ten per point; a yes/no symptom counts its own
      weight when present and 10 when absent. */
  function Unsorted(d: SymptomData): (cs: seq<Contribution<Symptom>>)
    ensures |cs| == 5
    ensures forall i :: 0 <= i < 5 ==> cs[i].active == Present(d, cs[i].key)
  {
    [ Contribution(SeverePain, d.painSeverity * 10, d.painSeverity > 3),
      Contribution(PainOutsidePeriods, if d.painOutsidePeriods then 80 else 10, d.painOutsidePeriods),
      Contribution(Gastrointestinal, if d.giSymptoms then 60 else 10, d.giSymptoms),
      Contribution(Fatigue, if d.fatigue then 50 else 10, d.fatigue),
      Contribution(IrregularCycles, if d.irregularCycles then 40 else 10, d.irregularCycles) ]
  }

  /** Largest value first. */
  predicate Descending<L>(s: seq<Contribution<L>>) {
    forall i, j :: 0 <= i < j < |s| ==> s[i].value >= s[j].value
  }

  /** The entries of `s` whose value is `v`, in their order in `s`. A sort is
      stable exactly when it leaves each of these subsequences as it was. */
  function WithValue<L>(s: seq<Contribution<L>>, v: int): seq<Contribution<L>> {
    if s == [] then []
    else (if s[0].value == v then [s[0]] else []) + WithValue(s[1..], v)
  }

  /** Puts `c` into a descending list before the first entry of smaller or
      equal value. */
  function Insert<L>(c: Contribution<L>, s: seq<Contribution<L>>): seq<Contribution<L>> {
    if s == [] || c.value >= s[0].value then [c] + s
    else [s[0]] + Insert(c, s[1..])
  }

  /** A stable sort by descending value: insertion from the back, so that of
      two entries with equal values the earlier one ends up first. */
  function SortDescending<L>(s: seq<Contribution<L>>): seq<Contribution<L>> {
    if s == [] then [] else Insert(s[0], SortDescending(s[1..]))
  }

  /** The list handed to the chart. */
  function Contributions(d: SymptomData): seq<Contribution<Symptom>> {
    SortDescending(Unsorted(d))
  }

  /** Membership in a value class is membership in the list with that value. */
  lemma {:induction false} WithValueMembers<L>(s: seq<Contribution<L>>, v: int)
    ensures forall c :: c in WithValue(s, v) <==> c in s && c.value == v
  {
    if s != [] {
      WithValueMembers(s[1..], v);
      assert s == [s[0]] + s[1..];
    }
  }

  /** Inserting adds exactly one entry, `c`. */
  lemma {:induction false} InsertPermutes<L>(c: Contribution<L>, s: seq<Contribution<L>>)
    ensures |Insert(c, s)| == |s| + 1
    ensures multiset(Insert(c, s)) == multiset(s) + multiset{c}
  {
    if s != [] && c.value < s[0].value {
      InsertPermutes(c, s[1..]);
      assert s == [s[0]] + s[1..];
    }
  }

  /** Inserting into a descending list gives a descending list. */
  lemma {:induction false} InsertDescending<L>(c: Contribution<L>, s: seq<Contribution<L>>)
    requires Descending(s)
    ensures Descending(Insert(c, s))
  {
    if s != [] && c.value < s[0].value {
      var rest := Insert(c, s[1..]);
      InsertDescending(c, s[1..]);
      InsertPermutes(c, s[1..]);
      assert Insert(c, s) == [s[0]] + rest;
      forall j | 0 < j < |Insert(c, s)|
        ensures s[0].value >= Insert(c, s)[j].value
      {
        assert rest[j - 1] in multiset(s[1..]) + multiset{c};
        assert rest[j - 1] in s[1..] || rest[j - 1] == c;
      }
    }
  }

  /** Inserting `c` into a descending list puts it in front of the entries of
      its own value and leaves every other value class alone. */
  lemma {:induction false} InsertStable<L>(c: Contribution<L>, s: seq<Contribution<L>>, v: int)
    requires Descending(s)
    ensures WithValue(Insert(c, s), v) == (if c.value == v then [c] else []) + WithValue(s, v)
  {
    if s == [] || c.value >= s[0].value {
      assert Insert(c, s)[1..] == s;
    } else {
      var rest := Insert(c, s[1..]);
      InsertStable(c, s[1..], v);
      assert Insert(c, s) == [s[0]] + rest;
      assert Insert(c, s)[1..] == rest;
      if c.value == v {
        assert s[0].value != v;
      }
    }
  }

  /** The sort returns a descending permutation of its input that keeps
      every value class in its original order. */
  lemma {:induction false} SortProperties<L>(s: seq<Contribution<L>>)
    ensures |SortDescending(s)| == |s|
    ensures multiset(SortDescending(s)) == multiset(s)
    ensures Descending(SortDescending(s))
    ensures forall v :: WithValue(SortDescending(s), v) == WithValue(s, v)
  {
    if s != [] {
      var rest := SortDescending(s[1..]);
      SortProperties(s[1..]);
      InsertPermutes(s[0], rest);
      InsertDescending(s[0], rest);
      assert s == [s[0]] + s[1..];
      forall v ensures WithValue(SortDescending(s), v) == WithValue(s, v) {
        InsertStable(s[0], rest, v);
      }
    }
  }

  /** The value class of the first entry starts with that entry. */
  lemma WithValueHead<L>(s: seq<Contribution<L>>)
    requires s != []
    ensures WithValue(s, s[0].value) == [s[0]] + WithValue(s[1..], s[0].value)
  {
  }

  /** Any other value class skips the first entry. */
  lemma WithValueSkip<L>(s: seq<Contribution<L>>, v: int)
    requires s != [] && s[0].value != v
    ensures WithValue(s, v) == WithValue(s[1..], v)
  {
  }

  /** A descending order that keeps every value class in its original order
      is unique: any stable sort by descending value gives the list above. */
  lemma {:induction false} StableDescendingUnique<L>(t: seq<Contribution<L>>, u: seq<Contribution<L>>)
    requires Descending(t) && Descending(u)
    requires forall v :: WithValue(t, v) == WithValue(u, v)
    ensures t == u
  {
    if t == [] && u != [] {
      WithValueHead(u);
      assert false;
    } else if t != [] && u == [] {
      WithValueHead(t);
      assert false;
    } else if t != [] {
      var a, b := t[0], u[0];
      WithValueHead(t);
      WithValueHead(u);
      WithValueMembers(t, b.value);
      WithValueMembers(u, a.value);
      assert a in WithValue(u, a.value);
      assert b in WithValue(t, b.value);
      assert a.value == b.value;
      var m := a.value;
      assert a == WithValue(t, m)[0] == WithValue(u, m)[0] == b;
      forall v ensures WithValue(t[1..], v) == WithValue(u[1..], v) {
        assert WithValue(t, v) == WithValue(u, v);
        if v == m {
          assert WithValue(t[1..], v) == WithValue(t, v)[1..];
          assert WithValue(u[1..], v) == WithValue(u, v)[1..];
        } else {
          WithValueSkip(t, v);
          WithValueSkip(u, v);
        }
      }
      StableDescendingUnique(t[1..], u[1..]);
      assert t == [a] + t[1..] && u == [b] + u[1..];
    }
  }

  /** Some entry of the list is about symptom `k`. */
  predicate Lists(cs: seq<Contribution<Symptom>>, k: Symptom) {
    exists i :: 0 <= i < |cs| && cs[i].key == k
  }

  /** The chart always receives five entries, one for each symptom, in
      descending order of value, ties kept in list order: exactly the list a
      stable descending sort of the written list gives. */
  lemma ContributionsRanked(d: SymptomData)
    ensures |Contributions(d)| == 5
    ensures multiset(Contributions(d)) == multiset(Unsorted(d))
    ensures Descending(Contributions(d))
    ensures forall v :: WithValue(Contributions(d), v) == WithValue(Unsorted(d), v)
    ensures forall k: Symptom :: Lists(Contributions(d), k)
  {
    SortProperties(Unsorted(d));
    var u := Unsorted(d);
    forall k: Symptom ensures Lists(Contributions(d), k) {
      var j := match k
        case SeverePain => 0
        case PainOutsidePeriods => 1
        case Gastrointestinal => 2
        case Fatigue => 3
        case IrregularCycles => 4;
      assert u[j].key == k;
      assert u[j] in multiset(Contributions(d));
      var i :| 0 <= i < 5 && Contributions(d)[i] == u[j];
    }
  }

  /** What an entry of the written list says: it is active exactly when
      its symptom is present; a yes/no entry is active exactly when its
      value is above 10 and never drops below 10; the pain entry is ten
      times the severity; with in-range answers the value lies in [0, 100]. */
  predicate Describes(d: SymptomData, c: Contribution<Symptom>) {
    && c.active == Present(d, c.key)
    && (c.key != SeverePain ==> c.value >= 10 && (c.active <==> c.value > 10))
    && (c.key == SeverePain ==> c.value == 10 * d.painSeverity)
    && (InRange(d) ==> 0 <= c.value <= 100)
  }

  /** Every entry of the chart list obeys the generation rule. */
  lemma ContributionEntries(d: SymptomData)
    ensures forall c :: c in Contributions(d) ==> Describes(d, c)
  {
    SortProperties(Unsorted(d));
    var u := Unsorted(d);
    forall c | c in Contributions(d) ensures Describes(d, c) {
      assert c in multiset(u);
      assert c == u[0] || c == u[1] || c == u[2] || c == u[3] || c == u[4];
    }
  }

  /** The largest value is at least 10, so the chart never divides by zero,
      and it is the value of the first entry. */
  lemma MaxValueOfContributions(d: SymptomData)
    ensures MaxValue(Contributions(d)) >= 10
    ensures MaxValue(Contributions(d)) == Contributions(d)[0].value
  {
    ContributionsRanked(d);
    ContributionEntries(d);
    var cs := Contributions(d);
    assert Lists(cs, PainOutsidePeriods);
    var k :| 0 <= k < 5 && cs[k].key == PainOutsidePeriods;
    assert cs[k] in cs;
    var i :| 0 <= i < |cs| && cs[i].value == MaxValue(cs);
    assert cs[0].value >= cs[i].value;
  }

  /** The chart drawn on the result screen: five bars in list order, the
      first one full, every width in [0, 100] for in-range answers. */
  lemma ResultChart(d: SymptomData)
    requires InRange(d)
    ensures MaxValue(Contributions(d)) > 0
    ensures |Bars(Contributions(d))| == 5
    ensures Bars(Contributions(d))[0].percentage == 100
    ensures forall i :: 0 <= i < 5 ==> 0 <= Bars(Contributions(d))[i].percentage <= 100
  {
    var cs := Contributions(d);
    ContributionsRanked(d);
    ContributionEntries(d);
    MaxValueOfContributions(d);
    forall i | 0 <= i < 5 ensures cs[i].value >= 0 {
      assert cs[i] in cs;
    }
    BarsWidths(cs);
  }
}
