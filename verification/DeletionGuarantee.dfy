/** What the transition table guarantees about deleting a device, for every combination of states. */
module DeletionGuarantee {
  import opened Prelude
  import opened TransitionTable
  import opened Transitions

  /** The two transient states in which a device is deleted for good. */
  predicate IsFinalDeletion(t: Transient) {
    t == ForceDeleting || t == DeletingPostAdapterResponse
  }

  /** What runs when a device that was never enabled is deleted. */
  function ShortList(d: DeviceType): seq<Handler> {
    if d == Parent then [RunPostDeviceDelete] else [ChildDeviceLost, RunPostDeviceDelete]
  }

  /** What runs when any other device is deleted. */
  function LongList(d: DeviceType, t: Transient): seq<Handler> {
    if d == Parent then [DeleteAllLogicalPorts, DeleteAllChildDevices, DeleteAllLogicalMeters, RunPostDeviceDelete]
    else if t == ForceDeleting then [DeleteAllDeviceFlows, ChildDeviceLost, DeleteLogicalPorts, RunPostDeviceDelete]
    else [DeleteAllDeviceFlows, DeleteLogicalPorts, ChildDeviceLost, RunPostDeviceDelete]
  }

  /** A state that leaves everything but the admin and transient states open. */
  function Open(admin: Admin, t: Transient): DeviceState {
    DeviceState(admin, ConnUnknown, OperUnknown, t)
  }

  /** Entries that delete for good are one of two kinds; waiting for the adapter does nothing; others never delete for good. */
  ghost predicate IsEntry(t: Transition) {
    && t.current.transient != AnyTransient
    && (IsFinalDeletion(t.current.transient) ==> IsShort(t) || IsLong(t))
    && (t.current.transient == DeletingFromAdapter ==> t.handlers == [])
    && (!IsFinalDeletion(t.current.transient) ==> RunPostDeviceDelete !in t.handlers)
    && (t.deviceType != Parent ==> forall h <- t.handlers :: !IsForParent(h))
    && (t.deviceType != Child ==> forall h <- t.handlers :: !IsForChild(h))
  }

  /** What is only ever done to an OLT: it owns the logical device and the ONUs. */
  predicate IsForParent(h: Handler) {
    h in {CreateLogicalDevice, DeleteLogicalDevice, DeleteAllChildDevices, DeleteAllLogicalPorts, DeleteAllLogicalMeters}
  }

  /** What is only ever done to an ONU: it owns UNI ports and can be lost. */
  predicate IsForChild(h: Handler) {
    h in {SetupUNILogicalPorts, ChildDeviceLost, DeleteLogicalPorts}
  }

  ghost predicate IsShort(t: Transition) {
    && t.deviceType != AnyType && t.previous == Open(Preprovisioned, AnyTransient)
    && t.current == Open(Preprovisioned, t.current.transient) && t.handlers == ShortList(t.deviceType)
  }

  ghost predicate IsLong(t: Transition) {
    && t.deviceType != AnyType && t.previous == Open(AdminUnknown, AnyTransient)
    && t.current == Open(AdminUnknown, t.current.transient) && t.handlers == LongList(t.deviceType, t.current.transient)
  }

  ghost predicate AreEntries(ts: seq<Transition>) {
    forall i {:trigger ts[i]} :: 0 <= i < |ts| ==> IsEntry(ts[i])
  }

  lemma ActivationSegment()
    ensures AreEntries(ActivationEntries)
  {
  }

  lemma ParentDeletionSegment()
    ensures AreEntries(ParentDeletionEntries)
  {
  }

  lemma ParentConnectionSegment()
    ensures AreEntries(ParentConnectionEntries)
  {
  }

  lemma ChildDeletionSegment()
    ensures AreEntries(ChildDeletionEntries)
  {
  }

  lemma InvalidSegment()
    ensures AreEntries(InvalidEntries)
  {
  }

  lemma ReconcilingSegment()
    ensures AreEntries(ReconcilingEntries)
  {
  }

  lemma ParentReconcilingSegment()
    ensures AreEntries(ParentReconcilingEntries)
  {
  }

  lemma Concat(a: seq<Transition>, b: seq<Transition>)
    requires AreEntries(a) && AreEntries(b)
    ensures AreEntries(a + b)
  {
  }

  lemma AllAreEntries()
    ensures AreEntries(Table)
  {
    ActivationSegment();
    ParentDeletionSegment();
    ParentConnectionSegment();
    ChildDeletionSegment();
    InvalidSegment();
    ReconcilingSegment();
    ParentReconcilingSegment();
    var t1 := ActivationEntries + ParentDeletionEntries;
    var t2 := t1 + ParentConnectionEntries;
    var t3 := t2 + ChildDeletionEntries;
    var t4 := t3 + InvalidEntries;
    var t5 := t4 + ReconcilingEntries;
    Concat(ActivationEntries, ParentDeletionEntries);
    Concat(t1, ParentConnectionEntries);
    Concat(t2, ChildDeletionEntries);
    Concat(t3, InvalidEntries);
    Concat(t4, ReconcilingEntries);
    Concat(t5, ParentReconcilingEntries);
  }

  /** Where the table has the entries for deletion. */
  function LongIndex(d: DeviceType, t: Transient): nat {
    if d == Parent then (if t == ForceDeleting then 9 else if t == DeletingPostAdapterResponse then 10 else 11)
    else (if t == ForceDeleting then 18 else if t == DeletingPostAdapterResponse then 19 else 20)
  }

  function ShortIndex(d: DeviceType, t: Transient): nat {
    if d == Parent then (if t == ForceDeleting then 5 else 6) else (if t == ForceDeleting then 7 else 8)
  }

  lemma SegmentsAt()
    ensures |Table| == 48
    ensures forall i {:trigger ActivationEntries[i]} :: 0 <= i < 5 ==> Table[i] == ActivationEntries[i]
    ensures forall i {:trigger ParentDeletionEntries[i]} :: 0 <= i < 7 ==> Table[5 + i] == ParentDeletionEntries[i]
    ensures forall i {:trigger ParentConnectionEntries[i]} :: 0 <= i < 6 ==> Table[12 + i] == ParentConnectionEntries[i]
    ensures forall i {:trigger ChildDeletionEntries[i]} :: 0 <= i < 3 ==> Table[18 + i] == ChildDeletionEntries[i]
    ensures forall i {:trigger InvalidEntries[i]} :: 0 <= i < 11 ==> Table[21 + i] == InvalidEntries[i]
    ensures forall i {:trigger ReconcilingEntries[i]} :: 0 <= i < 11 ==> Table[32 + i] == ReconcilingEntries[i]
    ensures forall i {:trigger ParentReconcilingEntries[i]} :: 0 <= i < 5 ==> Table[43 + i] == ParentReconcilingEntries[i]
  {
    assert |ActivationEntries| == 5 && |ParentDeletionEntries| == 7 && |ParentConnectionEntries| == 6;
    assert |ChildDeletionEntries| == 3 && |InvalidEntries| == 11 && |ReconcilingEntries| == 11 && |ParentReconcilingEntries| == 5;
  }

  /** The wildcard entry of a deletion state. */
  ghost predicate IsWild(t: Transition, d: DeviceType, s: Transient) {
    t.deviceType == d && t.previous == Open(AdminUnknown, AnyTransient) && t.current == Open(AdminUnknown, s)
  }

  lemma LongIsThere(d: DeviceType, s: Transient)
    requires d != AnyType && (IsFinalDeletion(s) || s == DeletingFromAdapter)
    ensures LongIndex(d, s) < |Table| && IsWild(Table[LongIndex(d, s)], d, s)
  {
    SegmentsAt();
    var i := LongIndex(d, s);
    if d == Parent {
      assert Table[i] == ParentDeletionEntries[i - 5];
    } else {
      assert Table[i] == ChildDeletionEntries[i - 18];
    }
  }

  lemma ShortIsThere(d: DeviceType, s: Transient)
    requires d != AnyType && IsFinalDeletion(s)
    ensures ShortIndex(d, s) < |Table| && IsShort(Table[ShortIndex(d, s)])
    ensures Table[ShortIndex(d, s)].deviceType == d && Table[ShortIndex(d, s)].current.transient == s
  {
    SegmentsAt();
    var i := ShortIndex(d, s);
    assert Table[i] == ParentDeletionEntries[i - 5];
  }

  /** Whatever the other states, the wildcard entry applies. */
  lemma WildApplies(ch: Change, t: Transition)
    requires IsWild(t, ch.deviceType, ch.current.transient) && ch.current.transient != AnyTransient
    ensures Applies(ch, t)
  {
  }

  lemma AppliesMeans(ch: Change, t: Transition)
    requires Applies(ch, t) && t.current.transient != AnyTransient
    ensures t.current.transient == ch.current.transient
    ensures t.deviceType == ch.deviceType || t.deviceType == AnyType
  {
  }

  /** The entry for devices that were never enabled applies exactly to those, and then beats the wildcard. */
  lemma ShortBeatsLong(ch: Change, short: Transition, long: Transition)
    requires IsShort(short) && short.deviceType == ch.deviceType && short.current.transient == ch.current.transient
    requires IsWild(long, ch.deviceType, ch.current.transient) && ch.current.transient != AnyTransient
    ensures Applies(ch, short) <==> ch.previous.admin == Preprovisioned && ch.current.admin == Preprovisioned
    ensures Applies(ch, short) ==> Rate(ch, short).score > Rate(ch, long).score
  {
  }

  ghost predicate BothPreprovisioned(ch: Change) {
    ch.previous.admin == Preprovisioned && ch.current.admin == Preprovisioned
  }

  /**
   Into FORCE_DELETING or DELETING_POST_ADAPTER_RESPONSE, from any state, the chosen handlers are the short
   list exactly when the device is preprovisioned before and after, and otherwise the long list; both end
   in RunPostDeviceDelete.
   */
  lemma FinalDeletionRunsPostDelete(ch: Change, choice: Option<nat>)
    requires ch.deviceType != AnyType && IsFinalDeletion(ch.current.transient)
    requires IsChoice(Ratings(Table, ch), choice)
    ensures choice.Some? && choice.value < |Table|
    ensures Table[choice.value].handlers ==
            if BothPreprovisioned(ch) then ShortList(ch.deviceType) else LongList(ch.deviceType, ch.current.transient)
    ensures var hs := Table[choice.value].handlers; hs != [] && hs[|hs| - 1] == RunPostDeviceDelete
  {
    var d, s := ch.deviceType, ch.current.transient;
    var short, long := ShortIndex(d, s), LongIndex(d, s);
    LongIsThere(d, s);
    ShortIsThere(d, s);
    AllAreEntries();
    WildApplies(ch, Table[long]);
    ChosenApplies(ch, choice, long);
    var t := Table[choice.value];
    assert IsEntry(t);
    AppliesMeans(ch, t);
    if IsShort(t) {
      ShortBeatsLong(ch, t, Table[long]);
    } else {
      LongNotBeaten(ch, choice, short);
    }
  }

  /** If the wildcard entry was chosen, the device was not preprovisioned before and after. */
  lemma LongNotBeaten(ch: Change, choice: Option<nat>, short: nat)
    requires IsChoice(Ratings(Table, ch), choice) && choice.Some? && choice.value < |Table|
    requires IsWild(Table[choice.value], ch.deviceType, ch.current.transient) && ch.current.transient != AnyTransient
    requires short < |Table| && IsShort(Table[short])
    requires Table[short].deviceType == ch.deviceType && Table[short].current.transient == ch.current.transient
    ensures !BothPreprovisioned(ch)
  {
    var rs := Ratings(Table, ch);
    ShortBeatsLong(ch, Table[short], Table[choice.value]);
    ChoiceIsUniqueMaximum(rs, choice, choice);
    assert RatedAt(Table, ch, rs, short) && RatedAt(Table, ch, rs, choice.value);
    assert rs[short].score <= rs[choice.value].score;
  }

  lemma ChosenApplies(ch: Change, choice: Option<nat>, i: nat)
    requires IsChoice(Ratings(Table, ch), choice)
    requires i < |Table| && Applies(ch, Table[i])
    ensures choice.Some? && choice.value < |Table| && Applies(ch, Table[choice.value])
  {
    var rs := Ratings(Table, ch);
    assert RatedAt(Table, ch, rs, i);
    assert rs[i].score > 0;
    assert RatedAt(Table, ch, rs, choice.value);
  }

  /** While waiting for the adapter's response nothing runs, and something is chosen: the empty list. */
  lemma WaitingForAdapterRunsNothing(ch: Change, choice: Option<nat>)
    requires ch.deviceType != AnyType && ch.current.transient == DeletingFromAdapter
    requires IsChoice(Ratings(Table, ch), choice)
    ensures choice.Some? && choice.value < |Table| && Table[choice.value].handlers == []
  {
    var long := LongIndex(ch.deviceType, DeletingFromAdapter);
    LongIsThere(ch.deviceType, DeletingFromAdapter);
    AllAreEntries();
    WildApplies(ch, Table[long]);
    ChosenApplies(ch, choice, long);
    assert IsEntry(Table[choice.value]);
    AppliesMeans(ch, Table[choice.value]);
  }

  /** No other transient state ever selects RunPostDeviceDelete. */
  lemma OnlyFinalDeletionRunsPostDelete(ch: Change, choice: Option<nat>)
    requires IsChoice(Ratings(Table, ch), choice) && !IsFinalDeletion(ch.current.transient)
    ensures choice.Some? ==> choice.value < |Table| && RunPostDeviceDelete !in Table[choice.value].handlers
  {
    if choice.Some? {
      AllAreEntries();
      var t := Table[choice.value];
      assert RatedAt(Table, ch, Ratings(Table, ch), choice.value);
      assert IsEntry(t);
      AppliesMeans(ch, t);
    }
  }

  /** Whatever the states, an OLT never gets a handler for ONUs, nor an ONU one for OLTs. */
  lemma HandlersFitDeviceType(ch: Change, choice: Option<nat>)
    requires IsChoice(Ratings(Table, ch), choice) && ch.deviceType != AnyType
    ensures choice.Some? ==>
      && choice.value < |Table|
      && forall h <- Table[choice.value].handlers :: if ch.deviceType == Parent then !IsForChild(h) else !IsForParent(h)
  {
    if choice.Some? {
      AllAreEntries();
      var t := Table[choice.value];
      assert RatedAt(Table, ch, Ratings(Table, ch), choice.value);
      assert IsEntry(t);
      AppliesMeans(ch, t);
    }
  }

  /** So a device's post-delete runs in exactly the changes into a final deletion in which no handler before it fails. */
  method ProcessDeviceTransition(ch: Change, fails: set<Handler>) returns (failed: Option<Handler>, ran: seq<Handler>)
    requires ch.deviceType != AnyType
    ensures RunPostDeviceDelete in ran ==> IsFinalDeletion(ch.current.transient) && ch.previous != ch.current
    ensures IsFinalDeletion(ch.current.transient) && ch.previous != ch.current && failed.None? ==> RunPostDeviceDelete in ran
    ensures ch.current.transient == DeletingFromAdapter ==> ran == [] && failed.None?
  {
    ghost var choice;
    failed, ran, choice := ProcessTransition(Table, ch, fails);
    if ch.previous != ch.current {
      if IsFinalDeletion(ch.current.transient) {
        FinalDeletionRunsPostDelete(ch, choice);
      } else {
        OnlyFinalDeletionRunsPostDelete(ch, choice);
      }
      if ch.current.transient == DeletingFromAdapter {
        WaitingForAdapterRunsNothing(ch, choice);
      }
    }
  }
}
