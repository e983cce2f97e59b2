/** The ordered tab list of the terminal UI with its cursor `active`
    (src/tabs.rs). A tab is an opaque element here; the application fixes
    what it holds. */
module Tabs {
  import opened Wrappers
  import opened Arith

  /** The cursor invariant: 0 on an empty list, otherwise a valid index. */
  predicate ActiveInRange(len: nat, active: nat) {
    if len == 0 then active == 0 else active < len
  }

  /** The list `s` without its element at `index`, as `Vec::remove` leaves it. */
  function RemovedAt<T>(s: seq<T>, index: nat): (r: seq<T>)
    requires index < |s|
    ensures |r| == |s| - 1
    ensures forall k :: 0 <= k < index ==> r[k] == s[k]
    ensures forall k :: index <= k < |r| ==> r[k] == s[k + 1]
  {
    s[..index] + s[index + 1..]
  }

  /** Where `set_active(index)` puts the cursor on a list of `len` tabs. */
  function ClampActive(index: nat, len: nat): (r: nat)
    ensures ActiveInRange(len, r)
    ensures len > 0 && index < len ==> r == index
    ensures len > 0 && index >= len ==> r == len - 1
  {
    if len == 0 then 0 else if index < len - 1 then index else len - 1
  }

  /** The cursor after the tab at `index` has been removed, leaving
      `newLen` tabs. It never moves forward, it stays put when the removed
      tab came after it, and a cursor that was on one of the `newLen + 1`
      tabs is on one of the remaining ones. */
  function RepairActive(active: nat, index: nat, newLen: nat): (r: nat)
    ensures newLen == 0 ==> r == 0
    ensures r <= active
    ensures newLen > 0 && index > active ==> r == active
    ensures newLen > 0 && index <= newLen && active <= newLen ==> r < newLen
  {
    if newLen == 0 then 0
    else if index < active then active - 1
    else if index == active && active >= newLen then newLen - 1
    else active
  }

  /** `next`: one step forward, wrapping from the last tab to the first. */
  function NextActive(active: nat, len: nat): (r: nat)
    ensures len == 0 ==> r == active
    ensures len > 0 ==> r < len
    ensures len > 0 && active < len ==> r == if active == len - 1 then 0 else active + 1
  {
    if len == 0 then active else (active + 1) % len
  }

  /** `prev`: one step back, wrapping from the first tab to the last. */
  function PrevActive(active: nat, len: nat): (r: nat)
    ensures len == 0 ==> r == active
    ensures len > 0 && active < len ==> r < len
    ensures len > 0 && active < len ==> r == if active == 0 then len - 1 else active - 1
  {
    if len == 0 then active else if active == 0 then len - 1 else active - 1
  }

  /** The cursor after `k` calls of `next`. */
  function NextTimes(active: nat, len: nat, k: nat): nat {
    if k == 0 then active else NextActive(NextTimes(active, len, k - 1), len)
  }

  /** Removing a tab keeps the cursor invariant. */
  lemma RepairKeepsInvariant(len: nat, active: nat, index: nat)
    requires ActiveInRange(len, active) && index < len
    ensures ActiveInRange(len - 1, RepairActive(active, index, len - 1))
  {
  }

  /** Removing a tab other than the active one leaves the cursor on the
      same tab: it moves back by one exactly when a tab before it went. */
  lemma RemoveKeepsActiveTab<T>(s: seq<T>, active: nat, index: nat)
    requires ActiveInRange(|s|, active) && index < |s| && index != active
    ensures RepairActive(active, index, |s| - 1) < |s| - 1
    ensures RemovedAt(s, index)[RepairActive(active, index, |s| - 1)] == s[active]
  {
  }

  /** Removing the active tab moves the cursor to the tab that followed it,
      or to the new last tab when the active tab was the last one. */
  lemma RemoveActiveTab<T>(s: seq<T>, active: nat)
    requires 1 < |s| && active < |s|
    ensures active < |s| - 1 ==> RemovedAt(s, active)[RepairActive(active, active, |s| - 1)] == s[active + 1]
    ensures active == |s| - 1 ==> RepairActive(active, active, |s| - 1) == |s| - 2
  {
  }

  /** `prev` undoes `next` and `next` undoes `prev`. */
  lemma PrevUndoesNext(active: nat, len: nat)
    requires ActiveInRange(len, active)
    ensures PrevActive(NextActive(active, len), len) == active
    ensures NextActive(PrevActive(active, len), len) == active
  {
  }

  /** `k` steps of `next` move the cursor `k` places, cyclically. */
  lemma {:induction false} NextTimesIsRotation(active: nat, len: nat, k: nat)
    requires 0 < len && active < len
    ensures NextTimes(active, len, k) == (active + k) % len
  {
    if k == 0 {
      ModUnique(active, len, 0, active);
    } else {
      NextTimesIsRotation(active, len, k - 1);
      ModSucc(active + k - 1, len);
    }
  }

  lemma ModSucc(x: nat, len: nat)
    requires 0 < len
    ensures (x + 1) % len == (x % len + 1) % len
  {
    var q, m := x / len, x % len;
    if m + 1 < len {
      ModUnique(x + 1, len, q, m + 1);
      ModUnique(m + 1, len, 0, m + 1);
    } else {
      ModUnique(x + 1, len, q + 1, 0);
      ModUnique(m + 1, len, 1, 0);
    }
  }

  /** Going round with `next` as many times as there are tabs returns to
      the starting tab. */
  lemma FullCycleReturns(active: nat, len: nat)
    requires 0 < len && active < len
    ensures NextTimes(active, len, len) == active
  {
    NextTimesIsRotation(active, len, len);
    ModUnique(active + len, len, 1, active);
  }

  /** `TabsState`: the tabs in display order and the index of the active one. */
  class TabsState<T> {
    var tabs: seq<T>
    var active: nat

    ghost predicate Valid()
      reads this
    {
      ActiveInRange(|tabs|, active)
    }

    /** `new`: takes the tabs as given and starts on the first one. */
    constructor (tabs: seq<T>)
      ensures this.tabs == tabs && active == 0
      ensures Valid()
    {
      this.tabs := tabs;
      active := 0;
    }

    function IsEmpty(): (r: bool)
      reads this
      ensures r <==> |tabs| == 0
    {
      |tabs| == 0
    }

    /** `active_tab`: the tab under the cursor, if the cursor names one. */
    function ActiveTab(): (r: Option<T>)
      reads this
      ensures r.Some? <==> active < |tabs|
      ensures r.Some? ==> r.value == tabs[active]
    {
      if active < |tabs| then Some(tabs[active]) else None
    }

    method SetActive(index: nat)
      modifies this`active
      ensures active == ClampActive(index, |tabs|)
      ensures Valid()
    {
      if |tabs| == 0 {
        active := 0;
        return;
      }
      active := if index < |tabs| - 1 then index else |tabs| - 1;
    }

    /** `add_tab`: appends; the cursor moves only onto a first tab. */
    method AddTab(tab: T)
      requires Valid()
      modifies this
      ensures tabs == old(tabs) + [tab]
      ensures active == if |old(tabs)| == 0 then 0 else old(active)
      ensures Valid()
    {
      tabs := tabs + [tab];
      if |tabs| == 1 {
        active := 0;
      }
    }

    /** `remove_tab`: out of range changes nothing; otherwise removes and
        returns that tab and repairs the cursor. */
    method RemoveTab(index: nat) returns (removed: Option<T>)
      requires Valid()
      modifies this
      ensures index >= |old(tabs)| ==> removed == None && tabs == old(tabs) && active == old(active)
      ensures index < |old(tabs)| ==>
        && removed == Some(old(tabs)[index])
        && tabs == RemovedAt(old(tabs), index)
        && active == RepairActive(old(active), index, |tabs|)
      ensures index < |old(tabs)| && index != old(active) ==> tabs[active] == old(tabs)[old(active)]
      ensures Valid()
    {
      if index >= |tabs| {
        return None;
      }
      ghost var before := tabs;
      var tab := tabs[index];
      tabs := tabs[..index] + tabs[index + 1..];
      if |tabs| == 0 {
        active := 0;
      } else if index < active {
        active := active - 1;
      } else if index == active && active >= |tabs| {
        active := |tabs| - 1;
      }
      RepairKeepsInvariant(|before|, old(active), index);
      if index != old(active) {
        RemoveKeepsActiveTab(before, old(active), index);
      }
      removed := Some(tab);
    }

    method Next()
      requires Valid()
      modifies this`active
      ensures active == NextActive(old(active), |tabs|)
      ensures Valid()
    {
      if |tabs| == 0 {
        return;
      }
      active := (active + 1) % |tabs|;
    }

    method Prev()
      requires Valid()
      modifies this`active
      ensures active == PrevActive(old(active), |tabs|)
      ensures Valid()
    {
      if |tabs| == 0 {
        return;
      }
      if active == 0 {
        active := |tabs| - 1;
      } else {
        active := active - 1;
      }
    }
  }
}
