/** The symptom form (src/components/screens/SymptomInputScreen.tsx): a
    working copy of the answers that each widget callback replaces with a
    copy differing in one field, and that "submit" hands over whole. */
module SymptomInput {
  import opened SymptomModel

  /** The six answers by name. */
  datatype Field = PainSeverity | PainDuration | PainOutsidePeriods | GiSymptoms | Fatigue | IrregularCycles

  /** The value of one answer: a slider position or a switch state. */
  datatype Value = Num(n: int) | Flag(b: bool)

  /** Reads one answer of a record. */
  function Get(d: SymptomData, f: Field): Value {
    match f
    case PainSeverity => Num(d.painSeverity)
    case PainDuration => Num(d.painDuration)
    case PainOutsidePeriods => Flag(d.painOutsidePeriods)
    case GiSymptoms => Flag(d.giSymptoms)
    case Fatigue => Flag(d.fatigue)
    case IrregularCycles => Flag(d.irregularCycles)
  }

  /** A record is determined by its six answers. */
  lemma GetDetermines(d1: SymptomData, d2: SymptomData)
    requires forall f :: Get(d1, f) == Get(d2, f)
    ensures d1 == d2
  {
    assert Get(d1, PainSeverity) == Get(d2, PainSeverity);
    assert Get(d1, PainDuration) == Get(d2, PainDuration);
    assert Get(d1, PainOutsidePeriods) == Get(d2, PainOutsidePeriods);
    assert Get(d1, GiSymptoms) == Get(d2, GiSymptoms);
    assert Get(d1, Fatigue) == Get(d2, Fatigue);
    assert Get(d1, IrregularCycles) == Get(d2, IrregularCycles);
  }

  /** One widget callback with the value it reports: the two sliders and the
      four switches. */
  datatype Edit =
    | SetSeverity(n: int)
    | SetDuration(n: int)
    | SetOutside(b: bool)
    | SetGi(b: bool)
    | SetFatigue(b: bool)
    | SetIrregular(b: bool)

  /** The answer an edit writes. */
  function Target(e: Edit): Field {
    match e
    case SetSeverity(_) => PainSeverity
    case SetDuration(_) => PainDuration
    case SetOutside(_) => PainOutsidePeriods
    case SetGi(_) => GiSymptoms
    case SetFatigue(_) => Fatigue
    case SetIrregular(_) => IrregularCycles
  }

  /** The value an edit writes. */
  function NewValue(e: Edit): Value {
    match e
    case SetSeverity(n) => Num(n)
    case SetDuration(n) => Num(n)
    case SetOutside(b) => Flag(b)
    case SetGi(b) => Flag(b)
    case SetFatigue(b) => Flag(b)
    case SetIrregular(b) => Flag(b)
  }

  /** The values the widgets can report: the severity slider runs over
      0..10 and the duration slider over 0..14, both in steps of 1. */
  predicate WidgetValue(e: Edit) {
    match e
    case SetSeverity(n) => 0 <= n <= 10
    case SetDuration(n) => 0 <= n <= 14
    case _ => true
  }

  /** The record after an edit: a copy of `d` with one answer replaced. */
  function Apply(d: SymptomData, e: Edit): (r: SymptomData)
    ensures Get(r, Target(e)) == NewValue(e)
    ensures forall f :: f != Target(e) ==> Get(r, f) == Get(d, f)
  {
    match e
    case SetSeverity(n) => d.(painSeverity := n)
    case SetDuration(n) => d.(painDuration := n)
    case SetOutside(b) => d.(painOutsidePeriods := b)
    case SetGi(b) => d.(giSymptoms := b)
    case SetFatigue(b) => d.(fatigue := b)
    case SetIrregular(b) => d.(irregularCycles := b)
  }

  /** The edit that writes back the value an answer already has. */
  function Rewrite(d: SymptomData, f: Field): (e: Edit)
    ensures Target(e) == f && NewValue(e) == Get(d, f)
  {
    match f
    case PainSeverity => SetSeverity(d.painSeverity)
    case PainDuration => SetDuration(d.painDuration)
    case PainOutsidePeriods => SetOutside(d.painOutsidePeriods)
    case GiSymptoms => SetGi(d.giSymptoms)
    case Fatigue => SetFatigue(d.fatigue)
    case IrregularCycles => SetIrregular(d.irregularCycles)
  }

  /** Writing an answer's current value leaves the record as it was. */
  lemma RewriteIsIdentity(d: SymptomData, f: Field)
    ensures Apply(d, Rewrite(d, f)) == d
  {
    var r := Apply(d, Rewrite(d, f));
    forall g ensures Get(r, g) == Get(d, g) {
    }
    GetDetermines(r, d);
  }

  /** Edits of different answers can be made in either order. */
  lemma ApplyCommutes(d: SymptomData, e1: Edit, e2: Edit)
    requires Target(e1) != Target(e2)
    ensures Apply(Apply(d, e1), e2) == Apply(Apply(d, e2), e1)
  {
    var r1, r2 := Apply(Apply(d, e1), e2), Apply(Apply(d, e2), e1);
    forall f ensures Get(r1, f) == Get(r2, f) {
    }
    GetDetermines(r1, r2);
  }

  /** Of two edits of the same answer only the later one is visible. */
  lemma LastEditWins(d: SymptomData, e1: Edit, e2: Edit)
    requires Target(e1) == Target(e2)
    ensures Apply(Apply(d, e1), e2) == Apply(d, e2)
  {
    var r1, r2 := Apply(Apply(d, e1), e2), Apply(d, e2);
    forall f ensures Get(r1, f) == Get(r2, f) {
    }
    GetDetermines(r1, r2);
  }

  /** A value the widgets can report keeps the answers in range. */
  lemma ApplyKeepsRange(d: SymptomData, e: Edit)
    requires InRange(d) && WidgetValue(e)
    ensures InRange(Apply(d, e))
  {
  }

  /** The record after a series of edits, made in order. */
  function ApplyAll(d: SymptomData, es: seq<Edit>): SymptomData {
    if es == [] then d else Apply(ApplyAll(d, es[..|es| - 1]), es[|es| - 1])
  }

  /** An answer no edit of the series touches keeps its value. */
  lemma {:induction false} ApplyAllUntouched(d: SymptomData, es: seq<Edit>, f: Field)
    requires forall i :: 0 <= i < |es| ==> Target(es[i]) != f
    ensures Get(ApplyAll(d, es), f) == Get(d, f)
  {
    if es != [] {
      ApplyAllUntouched(d, es[..|es| - 1], f);
    }
  }

  /** A series of widget edits keeps the answers in range. */
  lemma {:induction false} ApplyAllKeepsRange(d: SymptomData, es: seq<Edit>)
    requires InRange(d)
    requires forall i :: 0 <= i < |es| ==> WidgetValue(es[i])
    ensures InRange(ApplyAll(d, es))
  {
    if es != [] {
      ApplyAllKeepsRange(d, es[..|es| - 1]);
      ApplyKeepsRange(ApplyAll(d, es[..|es| - 1]), es[|es| - 1]);
    }
  }

  /** The form's working copy of the answers. */
  class SymptomForm {
    var data: SymptomData

    /** The form opens on the answers it is given. */
    constructor(initialData: SymptomData)
      ensures data == initialData
    {
      data := initialData;
    }

    /** The severity slider moved to `v`. */
    method MoveSeveritySlider(v: int)
      requires 0 <= v <= 10
      modifies this
      ensures data == Apply(old(data), SetSeverity(v))
      ensures Get(data, PainSeverity) == Num(v)
      ensures forall f :: f != PainSeverity ==> Get(data, f) == Get(old(data), f)
      ensures old(InRange(data)) ==> InRange(data)
    {
      data := data.(painSeverity := v);
    }

    /** The duration slider moved to `v`. */
    method MoveDurationSlider(v: int)
      requires 0 <= v <= 14
      modifies this
      ensures data == Apply(old(data), SetDuration(v))
      ensures Get(data, PainDuration) == Num(v)
      ensures forall f :: f != PainDuration ==> Get(data, f) == Get(old(data), f)
      ensures old(InRange(data)) ==> InRange(data)
    {
      data := data.(painDuration := v);
    }

    /** The "pain outside periods" switch set to `checked`. */
    method ToggleOutsidePeriods(checked: bool)
      modifies this
      ensures data == Apply(old(data), SetOutside(checked))
      ensures Get(data, PainOutsidePeriods) == Flag(checked)
      ensures forall f :: f != PainOutsidePeriods ==> Get(data, f) == Get(old(data), f)
    {
      data := data.(painOutsidePeriods := checked);
    }

    /** The gastrointestinal switch set to `checked`. */
    method ToggleGiSymptoms(checked: bool)
      modifies this
      ensures data == Apply(old(data), SetGi(checked))
      ensures Get(data, GiSymptoms) == Flag(checked)
      ensures forall f :: f != GiSymptoms ==> Get(data, f) == Get(old(data), f)
    {
      data := data.(giSymptoms := checked);
    }

    /** The fatigue switch set to `checked`. */
    method ToggleFatigue(checked: bool)
      modifies this
      ensures data == Apply(old(data), SetFatigue(checked))
      ensures Get(data, Fatigue) == Flag(checked)
      ensures forall f :: f != Fatigue ==> Get(data, f) == Get(old(data), f)
    {
      data := data.(fatigue := checked);
    }

    /** The irregular-cycles switch set to `checked`. */
    method ToggleIrregularCycles(checked: bool)
      modifies this
      ensures data == Apply(old(data), SetIrregular(checked))
      ensures Get(data, IrregularCycles) == Flag(checked)
      ensures forall f :: f != IrregularCycles ==> Get(data, f) == Get(old(data), f)
    {
      data := data.(irregularCycles := checked);
    }

    /** Submitting hands over every answer of the working copy, unchanged. */
    method HandleSubmit() returns (submitted: SymptomData)
      ensures forall f :: Get(submitted, f) == Get(data, f)
    {
      submitted := data;
    }
  }
}
