/**
 * The object-label overlay: a fixed table of six slots, each holding at
 * most one detected label with its pinyin and the time it was last seen.
 * A detection refreshes its label where it already sits or takes the
 * first free slot; slots not seen for five seconds are freed. Slots are
 * never moved, so slot i is always drawn on text row i.
 */
module LabelOverlay {
  import opened Wrappers

  const MaxSlots: int := 6
  /** A slot whose label was last seen more than this many milliseconds ago is freed. */
  const ExpiryMs: int := 5000

  datatype Slot = Slot(name: Option<string>, pinyin: Option<string>, lastSeen: int)

  /** A free slot, as created and as left by expiry. */
  const EmptySlot: Slot := Slot(None, None, 0)

  /** One scored class of a detection. */
  datatype Category = Category(name: string, score: real)
  datatype Detection = Detection(categories: seq<Category>)

  /**
   * `maxByOrNull { it.score() }` on a non-empty list: the index of the
   * first category with the highest score.
   */
  function TopIndex(cats: seq<Category>): (r: nat)
    requires cats != []
    ensures r < |cats|
    ensures forall j :: 0 <= j < |cats| ==> cats[j].score <= cats[r].score
    ensures forall j :: 0 <= j < r ==> cats[j].score < cats[r].score
  {
    if |cats| == 1 then 0
    else
      var k := TopIndex(cats[..|cats| - 1]);
      if cats[k].score < cats[|cats| - 1].score then |cats| - 1 else k
  }

  /** The label of a detection: its top category's name, or none when it has no category. */
  function DetectedLabel(d: Detection): (r: Option<string>)
    ensures r.None? <==> d.categories == []
    ensures r.Some? ==> exists c :: c in d.categories && c.name == r.value
                          && forall c' :: c' in d.categories ==> c'.score <= c.score
  {
    if d.categories == [] then None
    else
      var k := TopIndex(d.categories);
      assert d.categories[k] in d.categories;
      Some(d.categories[k].name)
  }

  /** `slots.indexOfFirst { it.label == label }`, absent when no slot holds the label. */
  function IndexOfLabel(s: seq<Slot>, l: string): (r: Option<nat>)
    ensures r.Some? ==> r.value < |s| && s[r.value].name == Some(l)
    ensures r.Some? ==> forall j :: 0 <= j < r.value ==> s[j].name != Some(l)
    ensures r.None? ==> forall j :: 0 <= j < |s| ==> s[j].name != Some(l)
  {
    if s == [] then None
    else if s[0].name == Some(l) then Some(0)
    else match IndexOfLabel(s[1..], l)
      case Some(k) => Some(k + 1)
      case None => None
  }

  /** `slots.indexOfFirst { it.label == null }`, absent when every slot is taken. */
  function IndexOfFree(s: seq<Slot>): (r: Option<nat>)
    ensures r.Some? ==> r.value < |s| && s[r.value].name.None?
    ensures r.Some? ==> forall j :: 0 <= j < r.value ==> s[j].name.Some?
    ensures r.None? ==> forall j :: 0 <= j < |s| ==> s[j].name.Some?
  {
    if s == [] then None
    else if s[0].name.None? then Some(0)
    else match IndexOfFree(s[1..])
      case Some(k) => Some(k + 1)
      case None => None
  }

  /**
   * The effect of one detection on the table. `pinyinOf` stands for the
   * lookup of the lower-cased label in the label-to-pinyin table; a label
   * it does not know gets the empty pinyin.
   */
  function Assign(s: seq<Slot>, d: Detection, now: int, pinyinOf: string -> Option<string>): (r: seq<Slot>)
    ensures |r| == |s|
    ensures DetectedLabel(d).None? ==> r == s
    // a label already in the table is refreshed where it first sits
    ensures DetectedLabel(d).Some? ==>
      var l := DetectedLabel(d).value;
      forall i :: 0 <= i < |s| && s[i].name == Some(l) && (forall j :: 0 <= j < i ==> s[j].name != Some(l)) ==>
        r == s[i := s[i].(lastSeen := now, pinyin := Some(pinyinOf(l).GetOr("")))]
    // a new label takes the lowest free slot
    ensures DetectedLabel(d).Some? ==>
      var l := DetectedLabel(d).value;
      (forall j :: 0 <= j < |s| ==> s[j].name != Some(l)) ==>
      forall e :: 0 <= e < |s| && s[e].name.None? && (forall j :: 0 <= j < e ==> s[j].name.Some?) ==>
        r == s[e := Slot(Some(l), Some(pinyinOf(l).GetOr("")), now)]
    // with no free slot a new label is dropped
    ensures ((forall j :: 0 <= j < |s| ==> s[j].name.Some?) && DetectedLabel(d).Some? &&
             (forall j :: 0 <= j < |s| ==> s[j].name != DetectedLabel(d))) ==> r == s
  {
    match DetectedLabel(d)
    case None => s
    case Some(l) =>
      var pinyin := pinyinOf(l).GetOr("");
      match IndexOfLabel(s, l)
      case Some(i) => s[i := s[i].(lastSeen := now, pinyin := Some(pinyin))]
      case None =>
        match IndexOfFree(s)
        case Some(e) => s[e := Slot(Some(l), Some(pinyin), now)]
        case None => s
  }

  /** The detections applied one after another, in list order. */
  function AssignAll(s: seq<Slot>, ds: seq<Detection>, now: int, pinyinOf: string -> Option<string>): (r: seq<Slot>)
    ensures |r| == |s|
    decreases |ds|
  {
    if ds == [] then s
    else Assign(AssignAll(s, ds[..|ds| - 1], now, pinyinOf), ds[|ds| - 1], now, pinyinOf)
  }

  function ExpireSlot(slot: Slot, cutoff: int): Slot {
    if slot.name.Some? && slot.lastSeen < cutoff then EmptySlot else slot
  }

  /** Frees every occupied slot last seen before `cutoff`. */
  function Expire(s: seq<Slot>, cutoff: int): (r: seq<Slot>)
    ensures |r| == |s|
    ensures forall i :: 0 <= i < |s| ==> r[i] == ExpireSlot(s[i], cutoff)
    ensures forall i :: 0 <= i < |s| && r[i].name.Some? ==> r[i].lastSeen >= cutoff
  {
    seq(|s|, i requires 0 <= i < |s| => ExpireSlot(s[i], cutoff))
  }

  /** `update`: all detections of the result, then expiry relative to `now`. */
  function UpdateSlots(s: seq<Slot>, ds: seq<Detection>, now: int, pinyinOf: string -> Option<string>)
    : (r: seq<Slot>)
    ensures |r| == |s|
    ensures forall i :: 0 <= i < |r| && r[i].name.Some? ==> r[i].lastSeen >= now - ExpiryMs
  {
    Expire(AssignAll(s, ds, now, pinyinOf), now - ExpiryMs)
  }

  /** No label occupies two slots. */
  ghost predicate Unique(s: seq<Slot>) {
    forall i, j :: 0 <= i < j < |s| && s[i].name.Some? ==> s[i].name != s[j].name
  }

  /** A slot without a label is entirely blank. */
  ghost predicate Blank(s: seq<Slot>) {
    forall i :: 0 <= i < |s| && s[i].name.None? ==> s[i] == EmptySlot
  }

  /** Slot `i` of `t` holds what slot `i` of `s` held, or `s`'s slot `i` was free. */
  ghost predicate KeepsOccupiedLabels(s: seq<Slot>, t: seq<Slot>)
    requires |s| == |t|
  {
    forall i :: 0 <= i < |s| && s[i].name.Some? ==> t[i].name == s[i].name
  }

  lemma AssignKeepsInvariants(s: seq<Slot>, d: Detection, now: int, pinyinOf: string -> Option<string>)
    requires Unique(s) && Blank(s)
    ensures var r := Assign(s, d, now, pinyinOf);
      Unique(r) && Blank(r) && KeepsOccupiedLabels(s, r)
  {
    var r := Assign(s, d, now, pinyinOf);
    if DetectedLabel(d).Some? {
      var l := DetectedLabel(d).value;
      if IndexOfLabel(s, l).None? && IndexOfFree(s).Some? {
        var e := IndexOfFree(s).value;
        forall i, j | 0 <= i < j < |r| && r[i].name.Some?
          ensures r[i].name != r[j].name
        {
          if i == e || j == e {
            assert s[if i == e then j else i].name != Some(l);
          }
        }
      }
    }
  }

  lemma {:induction false} AssignAllKeepsInvariants(s: seq<Slot>, ds: seq<Detection>, now: int,
                                                    pinyinOf: string -> Option<string>)
    requires Unique(s) && Blank(s)
    ensures var r := AssignAll(s, ds, now, pinyinOf);
      Unique(r) && Blank(r) && KeepsOccupiedLabels(s, r)
    decreases |ds|
  {
    if ds != [] {
      var prefix := ds[..|ds| - 1];
      AssignAllKeepsInvariants(s, prefix, now, pinyinOf);
      AssignKeepsInvariants(AssignAll(s, prefix, now, pinyinOf), ds[|ds| - 1], now, pinyinOf);
    }
  }

  lemma ExpireKeepsInvariants(s: seq<Slot>, cutoff: int)
    requires Unique(s) && Blank(s)
    ensures var r := Expire(s, cutoff);
      Unique(r) && Blank(r)
      && forall i :: 0 <= i < |s| ==> r[i].name == s[i].name || r[i] == EmptySlot
  {
  }

  /**
   * `update` keeps the table's invariants: still six slots, no label in
   * two slots, free slots blank, and every slot holds either the label it
   * held before or, if it was free, at most a newly detected one.
   */
  lemma UpdateKeepsInvariants(s: seq<Slot>, ds: seq<Detection>, now: int, pinyinOf: string -> Option<string>)
    requires Unique(s) && Blank(s)
    ensures var r := UpdateSlots(s, ds, now, pinyinOf);
      |r| == |s| && Unique(r) && Blank(r)
      && forall i :: 0 <= i < |s| && s[i].name.Some? ==> r[i].name == s[i].name || r[i] == EmptySlot
  {
    AssignAllKeepsInvariants(s, ds, now, pinyinOf);
    ExpireKeepsInvariants(AssignAll(s, ds, now, pinyinOf), now - ExpiryMs);
  }

  /**
   * Nothing is shuffled: a label that was in slot `i` before `update` is,
   * if anywhere afterwards, still in slot `i`, so it keeps its text row.
   */
  lemma LabelKeepsItsSlot(s: seq<Slot>, ds: seq<Detection>, now: int, pinyinOf: string -> Option<string>, i: int)
    requires Unique(s) && Blank(s)
    requires 0 <= i < |s| && s[i].name.Some?
    ensures forall j :: 0 <= j < |s| && UpdateSlots(s, ds, now, pinyinOf)[j].name == s[i].name ==> j == i
  {
    var a := AssignAll(s, ds, now, pinyinOf);
    AssignAllKeepsInvariants(s, ds, now, pinyinOf);
    assert a[i].name == s[i].name;
    var r := UpdateSlots(s, ds, now, pinyinOf);
    forall j | 0 <= j < |s| && r[j].name == s[i].name
      ensures j == i
    {
      assert a[j].name == s[i].name;
    }
  }

  /** The labels of the detections among `ds`. */
  ghost predicate DetectedIn(ds: seq<Detection>, l: string) {
    exists k :: 0 <= k < |ds| && DetectedLabel(ds[k]) == Some(l)
  }

  /**
   * `a` is `s` after the detections `ds`: slots holding a label detected in
   * `ds` were stamped with `now`, all other slots are as in `s`.
   */
  ghost predicate StampedBy(s: seq<Slot>, a: seq<Slot>, ds: seq<Detection>, now: int)
    requires |a| == |s|
  {
    && (forall i :: 0 <= i < |a| && a[i].name.Some? && DetectedIn(ds, a[i].name.value) ==> a[i].lastSeen == now)
    && (forall i :: 0 <= i < |a| && !(a[i].name.Some? && DetectedIn(ds, a[i].name.value)) ==> a[i] == s[i])
  }

  lemma DetectedInSnoc(ds: seq<Detection>, d: Detection, l: string)
    ensures DetectedIn(ds + [d], l) <==> DetectedIn(ds, l) || DetectedLabel(d) == Some(l)
  {
    if DetectedIn(ds, l) {
      var k :| 0 <= k < |ds| && DetectedLabel(ds[k]) == Some(l);
      assert (ds + [d])[k] == ds[k];
    }
    if DetectedLabel(d) == Some(l) {
      assert (ds + [d])[|ds|] == d;
    }
    if DetectedIn(ds + [d], l) && DetectedLabel(d) != Some(l) {
      var k :| 0 <= k < |ds + [d]| && DetectedLabel((ds + [d])[k]) == Some(l);
      assert k < |ds| && (ds + [d])[k] == ds[k];
    }
  }

  lemma StampedByStep(s: seq<Slot>, b: seq<Slot>, prefix: seq<Detection>, d: Detection, now: int,
                      pinyinOf: string -> Option<string>)
    requires |b| == |s| && Unique(b) && Blank(b) && StampedBy(s, b, prefix, now)
    ensures StampedBy(s, Assign(b, d, now, pinyinOf), prefix + [d], now)
  {
    var a := Assign(b, d, now, pinyinOf);
    var ds := prefix + [d];
    forall l ensures DetectedIn(ds, l) <==> DetectedIn(prefix, l) || DetectedLabel(d) == Some(l) {
      DetectedInSnoc(prefix, d, l);
    }
    forall i | 0 <= i < |a| && a[i].name.Some? && DetectedIn(ds, a[i].name.value)
      ensures a[i].lastSeen == now
    {
      if a[i] == b[i] && DetectedLabel(d) == a[i].name {
        assert IndexOfLabel(b, a[i].name.value).Some?;
      }
    }
    forall i | 0 <= i < |a| && !(a[i].name.Some? && DetectedIn(ds, a[i].name.value))
      ensures a[i] == s[i]
    {
      if a[i] != b[i] {
        AssignTouchesOnlyItsLabel(b, d, now, pinyinOf, i);
        assert false;
      }
    }
  }

  /**
   * Every slot that holds a label detected in this call was stamped with
   * `now`, and every other slot is as it was before the call.
   */
  lemma {:induction false} DetectedSlotsAreFresh(s: seq<Slot>, ds: seq<Detection>, now: int,
                                                 pinyinOf: string -> Option<string>)
    requires Unique(s) && Blank(s)
    ensures StampedBy(s, AssignAll(s, ds, now, pinyinOf), ds, now)
    decreases |ds|
  {
    if ds != [] {
      var prefix, d := ds[..|ds| - 1], ds[|ds| - 1];
      DetectedSlotsAreFresh(s, prefix, now, pinyinOf);
      AssignAllKeepsInvariants(s, prefix, now, pinyinOf);
      StampedByStep(s, AssignAll(s, prefix, now, pinyinOf), prefix, d, now, pinyinOf);
      assert prefix + [d] == ds;
    }
  }

  /** A detection changes only the slot that afterwards holds its own label. */
  lemma AssignTouchesOnlyItsLabel(b: seq<Slot>, d: Detection, now: int, pinyinOf: string -> Option<string>, i: int)
    requires 0 <= i < |b| && Assign(b, d, now, pinyinOf)[i] != b[i]
    ensures DetectedLabel(d).Some? && Assign(b, d, now, pinyinOf)[i].name == DetectedLabel(d)
  {
  }

  /**
   * Every label of this call that found or obtained a slot survives the
   * expiry step of the same call, stamped with `now`.
   */
  lemma DetectedLabelsSurviveExpiry(s: seq<Slot>, ds: seq<Detection>, now: int,
                                    pinyinOf: string -> Option<string>, i: int)
    requires Unique(s) && Blank(s)
    requires 0 <= i < |s|
    requires var a := AssignAll(s, ds, now, pinyinOf);
      a[i].name.Some? && DetectedIn(ds, a[i].name.value)
    ensures var a := AssignAll(s, ds, now, pinyinOf);
      UpdateSlots(s, ds, now, pinyinOf)[i] == a[i] && a[i].lastSeen == now
  {
    DetectedSlotsAreFresh(s, ds, now, pinyinOf);
  }

  /**
   * Free slots are never created by the detections: if a slot is still free
   * after all of them, every detected label found a slot.
   */
  lemma {:induction false} DetectedLabelsPlacedWhenRoom(s: seq<Slot>, ds: seq<Detection>, now: int,
                                                        pinyinOf: string -> Option<string>, l: string, e: int)
    requires Unique(s) && Blank(s)
    requires DetectedIn(ds, l)
    requires 0 <= e < |s| && AssignAll(s, ds, now, pinyinOf)[e].name.None?
    ensures exists i :: 0 <= i < |s| && AssignAll(s, ds, now, pinyinOf)[i].name == Some(l)
    decreases |ds|
  {
    var prefix, d := ds[..|ds| - 1], ds[|ds| - 1];
    var b := AssignAll(s, prefix, now, pinyinOf);
    AssignAllKeepsInvariants(s, prefix, now, pinyinOf);
    AssignKeepsInvariants(b, d, now, pinyinOf);
    if DetectedLabel(d) == Some(l) {
      PlacedWhenRoom(b, d, now, pinyinOf, l, e);
    } else {
      var k :| 0 <= k < |ds| && DetectedLabel(ds[k]) == Some(l);
      assert k < |prefix| && prefix[k] == ds[k];
      DetectedLabelsPlacedWhenRoom(s, prefix, now, pinyinOf, l, e);
      var i :| 0 <= i < |s| && b[i].name == Some(l);
      PlacedStaysPlaced(b, d, now, pinyinOf, i);
    }
  }

  lemma PlacedWhenRoom(b: seq<Slot>, d: Detection, now: int, pinyinOf: string -> Option<string>, l: string, e: int)
    requires DetectedLabel(d) == Some(l)
    requires 0 <= e < |b| && Assign(b, d, now, pinyinOf)[e].name.None?
    ensures exists i :: 0 <= i < |b| && Assign(b, d, now, pinyinOf)[i].name == Some(l)
  {
    var a := Assign(b, d, now, pinyinOf);
    match IndexOfLabel(b, l)
    case Some(i) =>
      assert a[i].name == Some(l);
    case None =>
      assert b[e].name.None?;
      var f := IndexOfFree(b).value;
      assert a[f].name == Some(l);
  }

  lemma PlacedStaysPlaced(b: seq<Slot>, d: Detection, now: int, pinyinOf: string -> Option<string>, i: int)
    requires 0 <= i < |b| && b[i].name.Some?
    ensures Assign(b, d, now, pinyinOf)[i].name == b[i].name
  {
  }

  /**
   * The text of a row: the label, followed by " / " and the pinyin when the
   * pinyin is present and not empty; nothing for a free slot.
   */
  function RowText(slot: Slot): (r: Option<string>)
    ensures r.Some? <==> slot.name.Some?
    ensures r.Some? ==> slot.name.value <= r.value
  {
    match slot.name
    case None => None
    case Some(l) =>
      var suffix := if slot.pinyin.Some? && slot.pinyin.value != "" then " / " + slot.pinyin.value else "";
      Some(l + suffix)
  }

  /** `onDraw`: row i shows slot i; free slots leave their row empty. */
  function Rows(s: seq<Slot>): (r: seq<Option<string>>)
    ensures |r| == |s|
    ensures forall i :: 0 <= i < |s| ==> r[i] == RowText(s[i])
  {
    seq(|s|, i requires 0 <= i < |s| => RowText(s[i]))
  }

  /** The view: the slot table and the status line. */
  class LabelOverlayView {
    const slots: array<Slot>
    var status: string

    ghost predicate Valid()
      reads this, slots
    {
      slots.Length == MaxSlots && Unique(slots[..]) && Blank(slots[..])
    }

    constructor ()
      ensures Valid() && fresh(slots)
      ensures forall i :: 0 <= i < MaxSlots ==> slots[i] == EmptySlot
      ensures status == ""
    {
      slots := new Slot[MaxSlots](_ => EmptySlot);
      status := "";
    }

    /**
     * `update`: the table afterwards is `UpdateSlots` of the table before;
     * it is changed in place and keeps its invariants.
     */
    method Update(ds: seq<Detection>, now: int, pinyinOf: string -> Option<string>)
      requires Valid()
      modifies slots
      ensures Valid()
      ensures slots[..] == UpdateSlots(old(slots[..]), ds, now, pinyinOf)
    {
      UpdateKeepsInvariants(slots[..], ds, now, pinyinOf);
      AssignDetections(ds, now, pinyinOf);
      ExpireStale(now - ExpiryMs);
    }

    /** The `forEach` over the detections: each refreshes or places its label. */
    method AssignDetections(ds: seq<Detection>, now: int, pinyinOf: string -> Option<string>)
      requires slots.Length == MaxSlots
      modifies slots
      ensures slots[..] == AssignAll(old(slots[..]), ds, now, pinyinOf)
    {
      ghost var before := slots[..];
      var k := 0;
      while k < |ds|
        invariant 0 <= k <= |ds|
        invariant slots[..] == AssignAll(before, ds[..k], now, pinyinOf)
      {
        assert ds[..k + 1][..k] == ds[..k];
        assert AssignAll(before, ds[..k + 1], now, pinyinOf)
            == Assign(AssignAll(before, ds[..k], now, pinyinOf), ds[k], now, pinyinOf);
        AssignDetection(ds[k], now, pinyinOf);
        k := k + 1;
      }
      assert ds[..|ds|] == ds;
    }

    /** The body of that `forEach`, for one detection. */
    method AssignDetection(d: Detection, now: int, pinyinOf: string -> Option<string>)
      modifies slots
      ensures slots[..] == Assign(old(slots[..]), d, now, pinyinOf)
    {
      var found := DetectedLabel(d);
      if found.Some? {
        var l := found.value;
        var pinyin := pinyinOf(l).GetOr("");
        var existing := IndexOfLabel(slots[..], l);
        if existing.Some? {
          var i := existing.value;
          slots[i] := slots[i].(lastSeen := now, pinyin := Some(pinyin));
        } else {
          var free := IndexOfFree(slots[..]);
          if free.Some? {
            slots[free.value] := Slot(Some(l), Some(pinyin), now);
          }
        }
      }
    }

    /** The expiry `forEach`: frees every occupied slot last seen before `cutoff`. */
    method ExpireStale(cutoff: int)
      modifies slots
      ensures slots[..] == Expire(old(slots[..]), cutoff)
    {
      var i := 0;
      while i < slots.Length
        invariant 0 <= i <= slots.Length
        invariant forall j :: 0 <= j < i ==> slots[j] == ExpireSlot(old(slots[j]), cutoff)
        invariant forall j :: i <= j < slots.Length ==> slots[j] == old(slots[j])
      {
        if slots[i].name.Some? && slots[i].lastSeen < cutoff {
          slots[i] := EmptySlot;
        }
        i := i + 1;
      }
    }

    method SetStatus(text: string)
      modifies this
      ensures status == text
    {
      status := text;
    }

    /** What the next redraw shows, row by row. */
    function ShownRows(): (r: seq<Option<string>>)
      reads this, slots
      requires Valid()
      ensures |r| == MaxSlots
    {
      Rows(slots[..])
    }
  }
}
