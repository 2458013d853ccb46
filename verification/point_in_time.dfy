/** Point-in-time views over revised observations (core/data/point_in_time.py). */
module PointInTime {
  import opened Wrappers

  /** A row of a frame; validFrom is absent when the frame has no such column. */
  datatype Row = Row(key: string, availableAt: int, validFrom: Option<int>, revision: int, payload: string)

  type Frame = set<Row>

  predicate KnownBy(r: Row, t: int) {
    r.availableAt <= t && (r.validFrom.Some? ==> r.validFrom.value <= t)
  }

  /** The revision ordering: availability, then validity, then revision number. */
  predicate Later(a: Row, b: Row) {
    || a.availableAt > b.availableAt
    || (a.availableAt == b.availableAt && a.validFrom.GetOr(0) > b.validFrom.GetOr(0))
    || (a.availableAt == b.availableAt && a.validFrom.GetOr(0) == b.validFrom.GetOr(0) && a.revision > b.revision)
  }

  predicate Superseded(f: Frame, t: int, r: Row) {
    exists s <- f :: s.key == r.key && KnownBy(s, t) && Later(s, r)
  }

  /** What the constructor keeps: known rows, and of each key only the last revision when the frame has revisions. */
  function View(f: Frame, revised: bool, t: int): Frame {
    set r | r in f && KnownBy(r, t) && (revised ==> !Superseded(f, t, r))
  }

  datatype Dataset = Dataset(rows: Frame, revised: bool, asOf: int)

  datatype Error = CannotWiden

  function Make(f: Frame, revised: bool, t: int): Dataset {
    Dataset(View(f, revised, t), revised, t)
  }

  function At(d: Dataset, t: int): Result<Dataset, Error> {
    if t > d.asOf then Err(CannotWiden) else Ok(Make(d.rows, d.revised, t))
  }

  /** Two different revisions of one key never share their place in the ordering. */
  ghost predicate TieFree(f: Frame) {
    forall a, b :: a in f && b in f && a.key == b.key && !Later(a, b) && !Later(b, a) ==> a == b
  }

  // ---------------------------------------------------------------- one row per key, for every key

  ghost function LaterRows(f: Frame, t: int, r: Row): set<Row> {
    set s | s in f && s.key == r.key && KnownBy(s, t) && Later(s, r)
  }

  lemma {:induction false} LatestExists(f: Frame, t: int, r: Row)
    requires r in f && KnownBy(r, t)
    ensures exists s :: s in View(f, true, t) && s.key == r.key
    decreases LaterRows(f, t, r)
  {
    if Superseded(f, t, r) {
      var s :| s in f && s.key == r.key && KnownBy(s, t) && Later(s, r);
      assert s in LaterRows(f, t, r) && s !in LaterRows(f, t, s);
      assert LaterRows(f, t, s) <= LaterRows(f, t, r);
      LatestExists(f, t, s);
    } else {
      assert r in View(f, true, t);
    }
  }

  /** What supersedes a row among fewer rows and less time also does among more. */
  lemma SupersededGrows(part: Frame, f: Frame, t: int, T: int, r: Row)
    requires part <= f && t <= T
    ensures Superseded(part, t, r) ==> Superseded(f, T, r)
  {
  }

  /** Of every key known at the time the view holds exactly one row, and no known revision is later. */
  lemma ViewHoldsLatestRevision(f: Frame, t: int)
    requires TieFree(f)
    ensures forall r :: r in f && KnownBy(r, t) ==> exists s :: s in View(f, true, t) && s.key == r.key && !Later(r, s)
    ensures forall a, b :: a in View(f, true, t) && b in View(f, true, t) && a.key == b.key ==> a == b
  {
    forall r | r in f && KnownBy(r, t) ensures exists s :: s in View(f, true, t) && s.key == r.key && !Later(r, s) {
      LatestExists(f, t, r);
    }
  }

  // ---------------------------------------------------------------- earlier views

  /** An earlier view never shows what was not known at its time, nor anything a view built at that time lacks. */
  lemma EarlierViewNeverLeaks(f: Frame, revised: bool, t: int, T: int)
    requires t <= T
    ensures var d := At(Make(f, revised, T), t);
      d.Ok? && d.value.rows <= View(f, revised, t) && d.value.asOf == t
      && forall r <- d.value.rows :: KnownBy(r, t)
  {
    var whole := Make(f, revised, T);
    var d := At(whole, t).value;
    forall r <- d.rows ensures r in View(f, revised, t) {
      if revised && Superseded(f, t, r) {
        var s :| s in f && s.key == r.key && KnownBy(s, t) && Later(s, r);
        assert KnownBy(s, T);
      }
    }
  }

  /** A row shown at t was revised again by T. */
  predicate RevisedLater(f: Frame, t: int, T: int, r: Row) {
    r in View(f, true, t) && Superseded(f, T, r)
  }

  /**
   * The exact difference: the narrowed view equals the view built directly at the earlier time if and only if no
   * row known then was revised again in between. Without revisions the two are always equal.
   */
  lemma EarlierViewIsExactIffNotRevised(f: Frame, revised: bool, t: int, T: int)
    requires t <= T
    ensures At(Make(f, revised, T), t).value.rows == View(f, revised, t)
      <==> (revised ==> forall r <- f :: !RevisedLater(f, t, T, r))
  {
    EarlierViewNeverLeaks(f, revised, t, T);
    var whole := Make(f, revised, T).rows;
    var narrowed := At(Make(f, revised, T), t).value.rows;
    if revised {
      forall r <- View(f, true, t) ensures r in narrowed <==> !RevisedLater(f, t, T, r) {
        SupersededGrows(whole, f, t, t, r);
      }
    } else {
      assert narrowed == View(f, false, t);
    }
  }

  /** A view has one revision per key already, so narrowing it only drops rows not yet known. */
  lemma NarrowedRows(f: Frame, revised: bool, t: int, T: int)
    requires t <= T
    ensures var d := Make(f, revised, T);
      At(d, t).value.rows == set r | r in d.rows && KnownBy(r, t)
  {
    var d := Make(f, revised, T);
    forall r <- d.rows | KnownBy(r, t) ensures r in At(d, t).value.rows {
      SupersededGrows(d.rows, f, t, T, r);
    }
  }

  /** Narrowing step by step gives what narrowing at once gives. */
  lemma NarrowingComposes(f: Frame, revised: bool, t: int, u: int, T: int)
    requires t <= u <= T
    ensures var d := Make(f, revised, T); At(At(d, u).value, t) == At(d, t)
  {
    var d := Make(f, revised, T);
    NarrowedRows(f, revised, u, T);
    NarrowedRows(f, revised, t, T);
    var mid, direct := At(d, u).value, At(d, t).value;
    var stepped := At(mid, t).value;
    forall r <- d.rows | KnownBy(r, t) ensures r in stepped.rows {
      assert KnownBy(r, u);
      SupersededGrows(mid.rows, f, t, T, r);
    }
    assert stepped.rows == direct.rows;
  }
}
