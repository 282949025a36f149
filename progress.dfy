/**
 * The "Progreso del PIE" widget: the share of the twelve fields that are filled in,
 * as `Math.round((count / 12) * 100)` where `count` sums, section by section, the
 * values that are truthy (for strings: non-empty).
 */
module Progress {
  import opened Intake

  /** The sections in the order `Object.values(pieData)` visits them. */
  const Sections: seq<Section> := [Contexto, Territorio, Audiencia, Objetivo]

  /** `Object.values(pieData[s])`: the section's values in declaration order. */
  function SectionValues(d: PieData, s: Section): seq<string> {
    seq(|SectionFields(s)|, i requires 0 <= i < |SectionFields(s)| => Get(d, SectionFields(s)[i]))
  }

  /** 1 for a truthy (non-empty) string, 0 for the empty string. */
  function Truthy(v: string): nat {
    if v == "" then 0 else 1
  }

  /** `xs.filter(Boolean).length`. */
  function CountTruthy(xs: seq<string>): (n: nat)
    ensures n <= |xs|
    ensures n == 0 <==> forall i :: 0 <= i < |xs| ==> xs[i] == ""
    ensures n == |xs| <==> forall i :: 0 <= i < |xs| ==> xs[i] != ""
  {
    if xs == [] then 0 else Truthy(xs[0]) + CountTruthy(xs[1..])
  }

  /**
   * `sections.reduce((acc, curr) => acc + <count of curr>, acc)`: the running total only
   * grows, and by at most four per section, the size of the largest one.
   */
  function Reduce(d: PieData, sections: seq<Section>, acc: nat): (r: nat)
    ensures acc <= r <= acc + 4 * |sections|
    decreases |sections|
  {
    if sections == [] then acc
    else Reduce(d, sections[1..], acc + CountTruthy(SectionValues(d, sections[0])))
  }

  /**
   * The number of non-empty fields, as the widget computes it: the section-by-section
   * reduce counts exactly the non-empty fields of the record, so at most twelve.
   */
  function FilledCount(d: PieData): (n: nat)
    ensures n == CountTruthy(FieldValues(d))
    ensures n <= 12
  {
    ReduceIsFieldCount(d);
    Reduce(d, Sections, 0)
  }

  /** The twelve field values listed field by field, independently of the sections. */
  function FieldValues(d: PieData): (r: seq<string>)
    ensures |r| == |AllFields|
    ensures forall i :: 0 <= i < |AllFields| ==> r[i] == Get(d, AllFields[i])
  {
    seq(|AllFields|, i requires 0 <= i < |AllFields| => Get(d, AllFields[i]))
  }

  /** Where a field sits in `AllFields`. */
  function IndexOf(f: Field): (i: nat)
    ensures i < |AllFields| && AllFields[i] == f
  {
    match f
    case Vende => 0 case Ticket => 1 case Canales => 2 case Limites => 3
    case TemasSi => 4 case LineasRojas => 5 case Tension => 6
    case Lenguaje => 7 case Sofisticacion => 8 case Objeciones => 9
    case Prioritario => 10 case Razon => 11
  }

  /** `IndexOf` inverts `AllFields`, so no field is listed twice. */
  lemma IndexOfAllFields(j: nat)
    requires j < |AllFields|
    ensures IndexOf(AllFields[j]) == j
  {
  }

  lemma {:induction false} CountTruthyAppend(a: seq<string>, b: seq<string>)
    ensures CountTruthy(a + b) == CountTruthy(a) + CountTruthy(b)
  {
    if a == [] {
      assert a + b == b;
    } else {
      assert (a + b)[1..] == a[1..] + b;
      CountTruthyAppend(a[1..], b);
    }
  }

  /** Replacing one value changes the count by the difference of the two values' truthiness. */
  lemma {:induction false} CountTruthyReplace(xs: seq<string>, i: nat, v: string)
    requires i < |xs|
    ensures CountTruthy(xs[i := v]) + Truthy(xs[i]) == CountTruthy(xs) + Truthy(v)
  {
    if i == 0 {
      assert xs[i := v][1..] == xs[1..];
    } else {
      assert xs[i := v][1..] == xs[1..][i - 1 := v];
      CountTruthyReplace(xs[1..], i - 1, v);
    }
  }

  /** The reduce adds up the four sections' counts. */
  lemma ReduceBySection(d: PieData)
    ensures Reduce(d, Sections, 0) ==
      CountTruthy(SectionValues(d, Contexto)) + CountTruthy(SectionValues(d, Territorio)) +
      CountTruthy(SectionValues(d, Audiencia)) + CountTruthy(SectionValues(d, Objetivo))
  {
    assert Sections[1..][1..][1..][1..] == [];
  }

  /** Counting section by section and counting field by field agree. */
  lemma ReduceIsFieldCount(d: PieData)
    ensures Reduce(d, Sections, 0) == CountTruthy(FieldValues(d))
  {
    var c := SectionValues(d, Contexto);
    var t := SectionValues(d, Territorio);
    var a := SectionValues(d, Audiencia);
    var o := SectionValues(d, Objetivo);
    assert c == [d.contexto.vende, d.contexto.ticket, d.contexto.canales, d.contexto.limites];
    assert t == [d.territorio.temasSi, d.territorio.lineasRojas, d.territorio.tension];
    assert a == [d.audiencia.lenguaje, d.audiencia.sofisticacion, d.audiencia.objeciones];
    assert o == [d.objetivo.prioritario, d.objetivo.razon];
    assert FieldValues(d) == c + t + a + o;
    CountTruthyAppend(c + t + a, o);
    CountTruthyAppend(c + t, a);
    CountTruthyAppend(c, t);
    ReduceBySection(d);
  }

  /** An edit replaces one entry of the field-by-field values. */
  lemma FieldValuesUpdate(d: PieData, f: Field, v: string)
    ensures FieldValues(Update(d, f, v)) == FieldValues(d)[IndexOf(f) := v]
  {
    var i := IndexOf(f);
    var before, after := FieldValues(d), FieldValues(Update(d, f, v));
    forall j | 0 <= j < |AllFields| ensures after[j] == before[i := v][j] {
      IndexOfAllFields(j);
      var g := AllFields[j];
      if g != f {
        assert Get(Update(d, f, v), g) == Get(d, g);
      }
    }
  }

  /** Editing one field moves the count by the change in that field's emptiness alone. */
  lemma UpdateCount(d: PieData, f: Field, v: string)
    ensures FilledCount(Update(d, f, v)) + Truthy(Get(d, f)) == FilledCount(d) + Truthy(v)
    ensures FilledCount(d) <= 12
  {
    FieldValuesUpdate(d, f, v);
    var i, before := IndexOf(f), FieldValues(d);
    CountTruthyReplace(before, i, v);
  }

  /** `Math.round(n / 12 * 100)`: the integer nearest to n/12 of 100, halves rounded up. */
  function RoundedPercent(n: nat): (p: int)
    ensures (p as real) - 0.5 <= (n as real) / 12.0 * 100.0 < (p as real) + 0.5
  {
    var q := (50 * n + 3) / 6;
    var r := (50 * n + 3) % 6;
    assert 50 * n + 3 == 6 * q + r;
    assert ((50 * n + 3) as real) == 6.0 * (q as real) + (r as real);
    q
  }

  lemma RoundedPercentMonotone(m: nat, n: nat)
    requires m <= n
    ensures RoundedPercent(m) <= RoundedPercent(n)
    ensures m < n ==> RoundedPercent(m) < RoundedPercent(n)
  {
  }

  /** No field is filled exactly when the count is 0; all are filled exactly when it is 12. */
  lemma FilledCountExtremes(d: PieData)
    ensures FilledCount(d) <= 12
    ensures FilledCount(d) == 0 <==> forall f :: Get(d, f) == ""
    ensures FilledCount(d) == 12 <==> forall f :: Get(d, f) != ""
  {
    var vs := FieldValues(d);
    if FilledCount(d) == 0 {
      forall f ensures Get(d, f) == "" { assert vs[IndexOf(f)] == Get(d, f); }
    } else {
      var i :| 0 <= i < |vs| && vs[i] != "";
      assert Get(d, AllFields[i]) != "";
    }
    if FilledCount(d) == 12 {
      forall f ensures Get(d, f) != "" { assert vs[IndexOf(f)] == Get(d, f); }
    } else {
      var i :| 0 <= i < |vs| && vs[i] == "";
      assert Get(d, AllFields[i]) == "";
    }
  }

  /** The percentage the widget shows. */
  function Completion(d: PieData): (p: int)
    ensures 0 <= p <= 100
    ensures (p as real) - 0.5 <= (FilledCount(d) as real) / 12.0 * 100.0 < (p as real) + 0.5
    ensures p == 0 <==> forall f :: Get(d, f) == ""
    ensures p == 100 <==> forall f :: Get(d, f) != ""
  {
    FilledCountExtremes(d);
    RoundedPercentMonotone(FilledCount(d), 12);
    RoundedPercentMonotone(0, FilledCount(d));
    RoundedPercent(FilledCount(d))
  }

  /** The starting record's sections hold, in order, zero, one, one and one non-empty values. */
  lemma InitialSectionCounts()
    ensures CountTruthy(SectionValues(Initial(), Contexto)) == 0
    ensures CountTruthy(SectionValues(Initial(), Territorio)) == 1
    ensures CountTruthy(SectionValues(Initial(), Audiencia)) == 1
    ensures CountTruthy(SectionValues(Initial(), Objetivo)) == 1
  {
    var d := Initial();
    var c, t := SectionValues(d, Contexto), SectionValues(d, Territorio);
    var a, o := SectionValues(d, Audiencia), SectionValues(d, Objetivo);
    assert c == ["", "", "", ""];
    assert t == ["", "", "Media"];
    assert a == ["", "Consciente del Problema", ""];
    assert o == ["Ventas", ""];
    assert CountTruthy(t[2..]) == 1;
    assert CountTruthy(a[2..]) == 0 && CountTruthy(a[1..]) == 1;
    assert CountTruthy(o[1..]) == 0;
  }

  /** The starting record has three non-empty fields. */
  lemma InitialFilledCount()
    ensures FilledCount(Initial()) == 3
  {
    ReduceBySection(Initial());
    InitialSectionCounts();
  }

  /** So the widget starts at 25%. */
  lemma InitialCompletion()
    ensures Completion(Initial()) == 25
  {
    InitialFilledCount();
    assert RoundedPercent(3) == 25;
  }

  /** Filling an empty field strictly raises the percentage; it never lowers it. */
  lemma FillingRaisesCompletion(d: PieData, f: Field, v: string)
    requires Get(d, f) == "" && v != ""
    ensures Completion(Update(d, f, v)) > Completion(d)
  {
    UpdateCount(d, f, v);
    RoundedPercentMonotone(FilledCount(d), FilledCount(Update(d, f, v)));
  }

  /** Clearing a field never raises the percentage. */
  lemma ClearingNeverRaisesCompletion(d: PieData, f: Field)
    ensures Completion(Update(d, f, "")) <= Completion(d)
  {
    UpdateCount(d, f, "");
    RoundedPercentMonotone(FilledCount(Update(d, f, "")), FilledCount(d));
  }
}
