/** Presence-checked overwrites driven by a table of rows: each row names an
    element and the placeholder it receives. `Overwrite` says declaratively
    what a table does to a data set; `Apply` performs the same writes one
    `UpdateElement` at a time, in the table's order, as the plugin does. */
module Overwrites {
  import opened DicomData

  /** The identity minted for one series: a new patient name and patient ID. */
  datatype Identity = Identity(name: string, patientid: string)

  /** A placeholder: a fixed value, or one of the minted identity strings. */
  datatype Fill = Fixed(v: Value) | NewName | NewID

  function Resolve(f: Fill, id: Identity): Value {
    match f
    case Fixed(v) => v
    case NewName => Str(id.name)
    case NewID => Str(id.patientid)
  }

  /** A policy table: its rows in the order the plugin writes them. */
  datatype Rows = End | Row(key: Key, fill: Fill, rest: Rows)

  /** The placeholder the last row for `k` prescribes, if any row names `k`. */
  function FillFor(rows: Rows, k: Key): Option<Fill> {
    match rows
    case End => None
    case Row(j, f, rest) =>
      var later := FillFor(rest, k);
      if later.Some? then later else if j == k then Some(f) else None
  }

  /** The value `k` holds after the overwrite: its placeholder when the table
      names it, otherwise the current value. */
  function Placed(rows: Rows, id: Identity, k: Key, current: Value): Value {
    match FillFor(rows, k)
    case Some(f) => Resolve(f, id)
    case None => current
  }

  /** Reference definition of applying a table: every present element the table
      names holds its placeholder, every other element keeps its value, and no
      element is added or removed. */
  function Overwrite(d: Dataset, rows: Rows, id: Identity): (r: Dataset)
    ensures r.Keys == d.Keys
  {
    map k | k in d :: Placed(rows, id, k, d[k])
  }

  /** The writes of `rows`, one `UpdateElement` after the other. */
  function Apply(d: Dataset, rows: Rows, id: Identity): Dataset {
    match rows
    case End => d
    case Row(k, f, rest) => Apply(UpdateElement(d, k, Resolve(f, id)), rest, id)
  }

  /** The rows of `a` followed by those of `b`. */
  function Then(a: Rows, b: Rows): Rows {
    match a
    case End => b
    case Row(k, f, rest) => Row(k, f, Then(rest, b))
  }

  /** Writing one row and then the rest of a table is overwriting with the
      whole table: the later rows win. */
  lemma OverwriteRow(d: Dataset, k: Key, f: Fill, rest: Rows, id: Identity)
    ensures Overwrite(UpdateElement(d, k, Resolve(f, id)), rest, id)
         == Overwrite(d, Row(k, f, rest), id)
  {
    var a := Overwrite(UpdateElement(d, k, Resolve(f, id)), rest, id);
    var b := Overwrite(d, Row(k, f, rest), id);
    forall j | j in a ensures a[j] == b[j] {
      if j == k {
      } else {
      }
    }
  }

  /** The one-at-a-time writes perform the declarative overwrite. */
  lemma {:induction false} ApplyIsOverwrite(d: Dataset, rows: Rows, id: Identity)
    ensures Apply(d, rows, id) == Overwrite(d, rows, id)
    decreases rows
  {
    match rows
    case End =>
      assert Overwrite(d, rows, id) == d;
    case Row(k, f, rest) =>
      ApplyIsOverwrite(UpdateElement(d, k, Resolve(f, id)), rest, id);
      OverwriteRow(d, k, f, rest, id);
  }

  /** The placeholder a later table prescribes wins over an earlier one. */
  function Later(earlier: Option<Fill>, later: Option<Fill>): Option<Fill> {
    if later.Some? then later else earlier
  }

  /** A later table wins over an earlier one for the elements it names. */
  lemma {:induction false} FillForThen(a: Rows, b: Rows, k: Key)
    ensures FillFor(Then(a, b), k) == Later(FillFor(a, k), FillFor(b, k))
    decreases a
  {
    match a
    case End =>
    case Row(j, f, rest) =>
      FillForThen(rest, b, k);
  }

  /** Overwriting with one table and then another is overwriting once with
      both, in that order. */
  lemma OverwriteThen(d: Dataset, a: Rows, b: Rows, id: Identity)
    ensures Overwrite(Overwrite(d, a, id), b, id) == Overwrite(d, Then(a, b), id)
  {
    forall k | k in d ensures Overwrite(Overwrite(d, a, id), b, id)[k] == Overwrite(d, Then(a, b), id)[k] {
      FillForThen(a, b, k);
    }
  }

  /** Removing private elements commutes with an overwrite. */
  lemma StripOverwrite(d: Dataset, rows: Rows, id: Identity)
    ensures RemovePrivateTags(Overwrite(d, rows, id)) == Overwrite(RemovePrivateTags(d), rows, id)
  {
  }

  /** Overwriting twice with the same table is overwriting once. */
  lemma OverwriteIdempotent(d: Dataset, rows: Rows, id: Identity)
    ensures Overwrite(Overwrite(d, rows, id), rows, id) == Overwrite(d, rows, id)
  {
  }

  // Tables applied to the items of a sequence element.

  function OverwriteEach(items: seq<Dataset>, rows: Rows, id: Identity): (r: seq<Dataset>)
    ensures |r| == |items|
  {
    seq(|items|, j requires 0 <= j < |items| => Overwrite(items[j], rows, id))
  }

  /** Applies a table to every item of the sequence under `key`, and does
      nothing when that element is absent. */
  function OverwriteItems(d: Dataset, key: Key, rows: Rows, id: Identity): (r: Dataset)
    ensures r.Keys == d.Keys
    ensures forall k :: k in d && k != key ==> r[k] == d[k]
    ensures key !in d ==> r == d
    ensures key in d && d[key].Items? ==>
              r[key].Items? && |r[key].items| == |d[key].items|
              && forall j :: 0 <= j < |d[key].items| ==>
                   r[key].items[j] == Overwrite(d[key].items[j], rows, id)
  {
    if key in d && d[key].Items? then
      d[key := Items(OverwriteEach(d[key].items, rows, id))]
    else
      d
  }
}
