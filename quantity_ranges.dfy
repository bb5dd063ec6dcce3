/** The quantity bounds per cargo class that the quoting form enforces on its
    quantity input (app.py, lines 372-406). */
module QuantityRanges {
  import opened Common
  import opened Text

  /** Inclusive bounds on the quantity; `max == None` is "no upper bound". */
  datatype Range = Range(min: int, max: Option<int>)

  /** The range used for a class the table does not know. */
  const DefaultRange := Range(1, None)

  /** The class table in the order the source lists it. Every bound is at
      least 1, and every bounded range has min <= max. */
  function Table(): (t: seq<(string, Range)>)
    ensures |t| == 12
    ensures forall i :: 0 <= i < |t| ==> WellFormed(t[i].1) && t[i].1.min >= 1
  {
    [ ("BULTO MINIMO (MAXIMO 20 KG)", Range(1, Some(20))),
      ("DE 21 KG A 100 KG", Range(21, Some(100))),
      ("DE 101 KG A 300 KG", Range(101, Some(300))),
      ("DE 301 KG A 500 KG", Range(301, Some(500))),
      ("DE 501 KG A 1000 KG", Range(501, Some(1000))),
      ("DE 1001 KG A 1500 KG", Range(1001, Some(1500))),
      ("DE 1501 KG A 2000 KG", Range(1501, Some(2000))),
      ("DE 2001 KG A 2500 KG", Range(2001, Some(2500))),
      ("DE 2501 KG A 3000 KG", Range(2501, Some(3000))),
      ("DE 3001 KG EN ADELANTE", Range(3001, None)),
      ("METROS CUBICOS", Range(1, Some(20))),
      ("METROS CUBICOS MUDANZA", Range(1, Some(20))) ]
  }

  /** The table re-keyed by `norm` of each label, as a dict comprehension
      builds it: entries are inserted in order, so a later label with the same
      key replaces an earlier one, and there is at most one key per label.
      The lookup uses it with `norm` the `strip().upper()` normalisation. */
  function Rekeyed(entries: seq<(string, Range)>, norm: string -> string): (m: map<string, Range>)
    ensures |m| <= |entries|
  {
    if entries == [] then map[]
    else
      var n := |entries| - 1;
      var last := entries[n];
      Rekeyed(entries[..n], norm)[norm(last.0) := last.1]
  }

  /** A key that some label maps to is present, with the range of the last
      such label. */
  lemma {:induction false} RekeyedLookup(entries: seq<(string, Range)>, norm: string -> string, key: string, i: nat)
    requires i < |entries| && norm(entries[i].0) == key
    requires forall j :: i < j < |entries| ==> norm(entries[j].0) != key
    ensures key in Rekeyed(entries, norm) && Rekeyed(entries, norm)[key] == entries[i].1
  {
    var n := |entries| - 1;
    if i < n {
      RekeyedLookup(entries[..n], norm, key, i);
    }
  }

  lemma {:induction false} RekeyedMissing(entries: seq<(string, Range)>, norm: string -> string, key: string)
    requires forall j :: 0 <= j < |entries| ==> norm(entries[j].0) != key
    ensures key !in Rekeyed(entries, norm)
  {
    if entries != [] {
      RekeyedMissing(entries[..|entries| - 1], norm, key);
    }
  }

  /** Every range in the re-keyed table is the range of a label that maps to
      its key. */
  lemma {:induction false} RekeyedValueFromTable(entries: seq<(string, Range)>, norm: string -> string, key: string)
    requires key in Rekeyed(entries, norm)
    ensures exists i :: 0 <= i < |entries| && norm(entries[i].0) == key
                        && entries[i].1 == Rekeyed(entries, norm)[key]
  {
    var n := |entries| - 1;
    if norm(entries[n].0) != key {
      RekeyedValueFromTable(entries[..n], norm, key);
      var i :| 0 <= i < n && norm(entries[..n][i].0) == key
               && entries[..n][i].1 == Rekeyed(entries[..n], norm)[key];
      assert entries[i] == entries[..n][i];
    }
  }

  /** The range the form applies to the selected class: both the selection
      and the table labels are normalised with `strip().upper()`, and an
      unknown class gets the default range. */
  function RangeFor(selected: string): (r: Range)
    ensures r == DefaultRange
            || exists i :: 0 <= i < |Table()| && Normalize(Table()[i].0) == Normalize(selected) && Table()[i].1 == r
    ensures (forall i :: 0 <= i < |Table()| ==> Normalize(Table()[i].0) != Normalize(selected)) ==> r == DefaultRange
  {
    var table := Rekeyed(Table(), Normalize);
    var key := Normalize(selected);
    if key in table then
      RekeyedValueFromTable(Table(), Normalize, key);
      table[key]
    else DefaultRange
  }

  /** The quantities the form accepts for a range: `min <= q`, and `q <= max`
      when there is a maximum. */
  predicate Accepts(r: Range, q: int)
    ensures Accepts(r, q) ==> WellFormed(r)
    ensures q == r.min ==> (Accepts(r, q) <==> WellFormed(r))
  {
    r.min <= q && (r.max.Some? ==> q <= r.max.value)
  }

  predicate WellFormed(r: Range) {
    r.max.Some? ==> r.min <= r.max.value
  }

  /** Every range the lookup can produce is well formed, so the form's
      initial value `min` is always accepted. */
  lemma RangeForAcceptsMin(selected: string)
    ensures WellFormed(RangeFor(selected))
    ensures Accepts(RangeFor(selected), RangeFor(selected).min)
  {
    var key := Normalize(selected);
    if key in Rekeyed(Table(), Normalize) {
      RekeyedValueFromTable(Table(), Normalize, key);
    }
  }

  /** A class no table label normalises to gets min 1 and no maximum. */
  lemma UnknownClassGetsDefault(selected: string)
    requires forall i :: 0 <= i < |Table()| ==> Normalize(Table()[i].0) != Normalize(selected)
    ensures RangeFor(selected) == DefaultRange
  {
    RekeyedMissing(Table(), Normalize, Normalize(selected));
  }

  /** A class found in the table gets that label's range. */
  lemma KnownClassGetsItsRange(selected: string, i: nat)
    requires i < |Table()| && Normalize(Table()[i].0) == Normalize(selected)
    requires forall j :: i < j < |Table()| ==> Normalize(Table()[j].0) != Normalize(selected)
    ensures RangeFor(selected) == Table()[i].1
  {
    RekeyedLookup(Table(), Normalize, Normalize(selected), i);
  }

  /** The lookup ignores surrounding white space and letter case: a selection
      and its normalised form get the same range. */
  lemma RangeForIgnoresCaseAndPadding(selected: string)
    ensures RangeFor(selected) == RangeFor(Normalize(selected))
  {
    NormalizeIdempotent(selected);
  }

  /** Every table label is stripped already. */
  lemma LabelsStripped()
    ensures forall i :: 0 <= i < |Table()| ==> IsStripped(Table()[i].0)
  {
  }

  /** No table label holds a small letter; stated four labels at a time. */
  lemma FirstLabelsCapitalised()
    ensures forall i, c :: 0 <= i < 4 && c in Table()[i].0 ==> !IsSmall(c)
  {
  }

  lemma MiddleLabelsCapitalised()
    ensures forall i, c :: 4 <= i < 8 && c in Table()[i].0 ==> !IsSmall(c)
  {
  }

  lemma LastLabelsCapitalised()
    ensures forall i, c :: 8 <= i < |Table()| && c in Table()[i].0 ==> !IsSmall(c)
  {
  }

  /** Each table label is its own `strip().upper()` form, so the re-keyed
      table has the labels themselves as keys. */
  lemma LabelsNormal()
    ensures forall i :: 0 <= i < |Table()| ==> Normalize(Table()[i].0) == Table()[i].0
  {
    LabelsStripped();
    FirstLabelsCapitalised();
    MiddleLabelsCapitalised();
    LastLabelsCapitalised();
    forall i | 0 <= i < |Table()|
      ensures Normalize(Table()[i].0) == Table()[i].0
    {
      NormalFormFixed(Table()[i].0);
    }
  }

  /** No two table labels are equal, so no label is overwritten when the
      table is re-keyed. */
  lemma LabelsDistinct()
    ensures forall i, j :: 0 <= i < j < |Table()| ==> Table()[i].0 != Table()[j].0
  {
  }

  /** A selection whose stripped form is a table label up to letter case
      gets that label's range. */
  lemma SelectionGetsLabelRange(selected: string, i: nat)
    requires i < |Table()| && SameIgnoringCase(Strip(selected), Table()[i].0)
    ensures RangeFor(selected) == Table()[i].1
  {
    var name := Table()[i].0;
    LabelsNormal();
    LabelsDistinct();
    StripFixesStripped(name);
    NormalizeEqualIff(selected, name);
    KnownClassGetsItsRange(selected, i);
  }

  /** A selection whose stripped form matches no label up to letter case gets
      the default range. */
  lemma UnmatchedSelectionGetsDefault(selected: string)
    requires forall i :: 0 <= i < |Table()| ==> !SameIgnoringCase(Strip(selected), Table()[i].0)
    ensures RangeFor(selected) == DefaultRange
  {
    LabelsNormal();
    forall i | 0 <= i < |Table()|
      ensures Normalize(Table()[i].0) != Normalize(selected)
    {
      StripFixesStripped(Table()[i].0);
      NormalizeEqualIff(Table()[i].0, selected);
      if Normalize(Table()[i].0) == Normalize(selected) {
        assert SameIgnoringCase(Strip(selected), Table()[i].0);
      }
    }
    UnknownClassGetsDefault(selected);
  }

  /** "de 21 kg a 100 kg" is the second label in small letters. */
  lemma SecondLabelInSmallLetters(t: string)
    requires t == "de 21 kg a 100 kg"
    ensures t != [] && IsStripped(t) && SameIgnoringCase(t, Table()[1].0)
    ensures Table()[1].1 == Range(21, Some(100))
  {
    assert Table()[1].0 == "DE 21 KG A 100 KG";
  }

  /** The selection " de 21 kg a 100 kg ", stripped, is the second label up to
      letter case. */
  lemma PaddedSecondLabel(selected: string)
    requires selected == " de 21 kg a 100 kg "
    ensures SameIgnoringCase(Strip(selected), Table()[1].0)
    ensures Table()[1].1 == Range(21, Some(100))
  {
    var t := "de 21 kg a 100 kg";
    assert selected == " " + t + " ";
    SecondLabelInSmallLetters(t);
    StripPadding(" ", t, " ");
  }

  /** A padded, lower-case selection still gets the range of its class. */
  lemma PaddedLowerCaseSelection(selected: string)
    requires selected == " de 21 kg a 100 kg "
    ensures RangeFor(selected) == Range(21, Some(100))
  {
    PaddedSecondLabel(selected);
    SelectionGetsLabelRange(selected, 1);
  }
}
