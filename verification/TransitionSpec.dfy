/**
 Which handlers the transition table selects, for every change of every device: a specification by cases on
 the states, and the proof that matching, scoring and the order of the entries come to exactly that.
 */
module TransitionSpec {
  import opened Prelude
  import opened TransitionTable
  import opened Transitions
  import opened DeletionGuarantee

  // ---------------------------------------------------------------------------------------------
  // The specification

  /** What is torn down when an OLT has rebooted. */
  const Teardown: seq<Handler> :=
    [DeleteAllLogicalPorts, DeleteAllChildDevices, DeleteAllLogicalMeters, DeleteLogicalDevice, DeleteAllDeviceFlows]

  /** No transient state is left. */
  function WhenStable(ch: Change): Option<seq<Handler>> {
    var a, b := ch.previous.admin, ch.current.admin;
    if a == Enabled && b == Enabled then Some(if ch.deviceType == Parent then EnabledOlt(ch) else EnabledOnu(ch))
    else if a == Disabled && b == Disabled && ch.deviceType == Parent then Some(DisabledOlt(ch))
    else if b == AdminUnknown && (a == Preprovisioned || a == Enabled || (a == Disabled && ch.deviceType == Child))
    then Some([NotifyInvalidTransition])
    else if b == Preprovisioned && (a == Enabled || a == Disabled) then Some([NotifyInvalidTransition])
    else if ch.deviceType == Child && ((a == Enabled && b == DownloadingImage) || (a == DownloadingImage && b == Enabled)) then Some([])
    else None
  }

  function EnabledOlt(ch: Change): seq<Handler> {
    var oper, conn, was := ch.current.oper, ch.current.conn, ch.previous.oper;
    if oper == Active then [CreateLogicalDevice]
    else if oper == Activating then [NotifyInvalidTransition]
    else if oper == OperUnknown then
      if was == Active || (was != Activating && conn != ConnUnknown) then [] else [NotifyInvalidTransition]
    else if conn == Unreachable then []
    else [CreateLogicalDevice]
  }

  function EnabledOnu(ch: Change): seq<Handler> {
    var oper, was := ch.current.oper, ch.previous.oper;
    if oper == Active then [SetupUNILogicalPorts]
    else if oper == OperUnknown || (oper == Activating && was == Active) then [NotifyInvalidTransition]
    else []
  }

  function DisabledOlt(ch: Change): seq<Handler> {
    var oper, conn := ch.current.oper, ch.current.conn;
    if oper == OperUnknown then if conn == Reachable then [CreateLogicalDevice] else []
    else if oper == Rebooted || conn != Unreachable then Teardown
    else []
  }

  /** The device is being reconciled. */
  function WhenReconciling(ch: Change): Option<seq<Handler>> {
    var a, b, oper, conn := ch.previous.admin, ch.current.admin, ch.current.oper, ch.current.conn;
    if a != b || a == AdminUnknown then None
    else if a == Preprovisioned then Some([])
    else if a == DownloadingImage then Some(if oper == OperUnknown || oper == ReconcilingFailed then [ReconcilingCleanup] else [])
    else if a == Disabled then
      Some(if oper == OperUnknown || oper == ReconcilingFailed || (oper != Reconciling && conn == Unreachable) then [ReconcilingCleanup] else [])
    else Some(if ch.deviceType == Parent then ReconcilingOlt(ch) else ReconcilingOnu(ch))
  }

  function ReconcilingOnu(ch: Change): seq<Handler> {
    var oper, conn := ch.current.oper, ch.current.conn;
    if oper == Active || oper == OperUnknown || oper == ReconcilingFailed then [ReconcilingCleanup]
    else if oper == Reconciling || conn == ConnUnknown then []
    else [ReconcilingCleanup]
  }

  function ReconcilingOlt(ch: Change): seq<Handler> {
    var oper, conn, was := ch.current.oper, ch.current.conn, ch.previous.oper;
    if oper == Reconciling then
      if was == Reconciling || (was != Rebooted && conn == Reachable) then [CreateLogicalDevice] else []
    else if oper == Active || oper == ReconcilingFailed then [ReconcilingCleanup]
    else if oper == OperUnknown then
      if was == Reconciling || (was != Active && conn != Unreachable) then [ReconcilingCleanup] else []
    else if oper == Rebooted || conn == Reachable then [ReconcilingCleanup] + Teardown
    else []
  }

  /** What should run for a change, or None if nothing is selected. */
  function Expected(ch: Change): Option<seq<Handler>> {
    match ch.current.transient
    case Stable => WhenStable(ch)
    case ReconcileInProgress => WhenReconciling(ch)
    case RebootInProgress =>
      if ch.deviceType == Parent && ch.previous.admin == Enabled && ch.current.admin == Enabled
      then Some(Teardown + [ClearDeviceTransientState]) else None
    case ForceDeleting => Some(Deletion(ch))
    case DeletingPostAdapterResponse => Some(Deletion(ch))
    case DeletingFromAdapter => Some([])
    case DeleteFailed => None
    case AnyTransient => None
  }

  function Deletion(ch: Change): seq<Handler> {
    if ch.previous.admin == Preprovisioned && ch.current.admin == Preprovisioned then ShortList(ch.deviceType)
    else LongList(ch.deviceType, ch.current.transient)
  }

  // ---------------------------------------------------------------------------------------------
  // Entries for one pair of admin states and one transient state rank by the other states

  predicate Steady(t: Transition, a: Admin, b: Admin, s: Transient) {
    && t.previous.admin == a && t.current.admin == b && a != AdminUnknown
    && t.previous.transient == s && t.current.transient == s && s != AnyTransient
  }

  predicate IsChange(ch: Change, a: Admin, b: Admin, s: Transient) {
    ch.previous.admin == a && ch.current.admin == b && ch.current.transient == s
  }

  ghost predicate IsFor(d: DeviceType, t: Transition) {
    t.deviceType == d || t.deviceType == AnyType
  }

  function Rank(ch: Change, t: Transition): nat {
    4 * OperLevel(ch.previous.oper, ch.current.oper, t) + ConnLevel(ch.previous.conn, ch.current.conn, t)
  }

  function Base(ch: Change, b: Admin, s: Transient): nat {
    256 * (if ch.previous.transient == s then 3 else 2) + if b == AdminUnknown then 16 else 48
  }

  predicate IsExact(ch: Change, t: Transition) {
    ch.previous == t.previous && ch.current == t.current
  }

  lemma SteadyScore(ch: Change, t: Transition, a: Admin, b: Admin, s: Transient)
    requires Steady(t, a, b, s) && IsChange(ch, a, b, s) && IsFor(ch.deviceType, t)
    ensures Rate(ch, t).score == if IsExact(ch, t) then FullScore else Base(ch, b, s) + Rank(ch, t)
  {
  }

  lemma SteadyApplies(ch: Change, t: Transition, a: Admin, b: Admin, s: Transient)
    requires Steady(t, a, b, s)
    ensures Applies(ch, t) <==> IsChange(ch, a, b, s) && IsFor(ch.deviceType, t)
  {
  }

  // ---------------------------------------------------------------------------------------------
  // Where the entries are

  predicate StableSlot(d: DeviceType, a: Admin, b: Admin, k: nat) {
    if a == Enabled && b == Enabled then
      if d == Parent then k == 0 || k == 12 || k == 16 || k == 21 || k == 22 || k == 27 || k == 28
      else k == 1 || k == 2 || k == 3 || k == 4 || k == 21 || k == 22 || k == 28
    else if a == Disabled && b == Disabled then d == Parent && (k == 14 || k == 15 || k == 17)
    else if b == AdminUnknown then
      (a == Preprovisioned && k == 23) || (a == Enabled && k == 26) || (a == Disabled && d == Child && k == 30)
    else if b == Preprovisioned then (a == Enabled && k == 29) || (a == Disabled && k == 31)
    else d == Child && ((a == Enabled && b == DownloadingImage && k == 24) || (a == DownloadingImage && b == Enabled && k == 25))
  }

  predicate ReconcilingSlot(d: DeviceType, a: Admin, b: Admin, k: nat) {
    a == b &&
    match a
    case Enabled => k == 32 || k == 36 || k == 37 || k == 40 || (d == Parent && 43 <= k <= 47)
    case Disabled => k == 33 || k == 38 || k == 41
    case Preprovisioned => k == 34
    case DownloadingImage => k == 35 || k == 39 || k == 42
    case AdminUnknown => false
  }

  /** Entry k is where its states say. */
  predicate InSlot(k: nat, t: Transition) {
    match t.current.transient
    case Stable =>
      && t.previous.transient == Stable && t.previous.admin != AdminUnknown
      && (t.deviceType != Child ==> StableSlot(Parent, t.previous.admin, t.current.admin, k))
      && (t.deviceType != Parent ==> StableSlot(Child, t.previous.admin, t.current.admin, k))
    case ReconcileInProgress =>
      && t.previous.transient == ReconcileInProgress && t.previous.admin != AdminUnknown
      && (t.deviceType != Child ==> ReconcilingSlot(Parent, t.previous.admin, t.current.admin, k))
      && (t.deviceType != Parent ==> ReconcilingSlot(Child, t.previous.admin, t.current.admin, k))
    case RebootInProgress => k == 13
    case DeleteFailed => false
    case AnyTransient => false
    case _ => true
  }

  ghost predicate InSlots(offset: nat, ts: seq<Transition>) {
    forall i {:trigger ts[i]} :: 0 <= i < |ts| ==> InSlot(offset + i, ts[i])
  }

  lemma ActivationInSlots()
    ensures InSlots(0, ActivationEntries)
  {
  }

  lemma ParentDeletionInSlots()
    ensures InSlots(5, ParentDeletionEntries)
  {
  }

  lemma ParentConnectionInSlots()
    ensures InSlots(12, ParentConnectionEntries)
  {
  }

  lemma ChildDeletionInSlots()
    ensures InSlots(18, ChildDeletionEntries)
  {
  }

  lemma InvalidInSlots()
    ensures InSlots(21, InvalidEntries)
  {
  }

  lemma ReconcilingInSlots()
    ensures InSlots(32, ReconcilingEntries)
  {
  }

  lemma ParentReconcilingInSlots()
    ensures InSlots(43, ParentReconcilingEntries)
  {
  }

  lemma EntryInSlot(k: nat)
    requires k < |Table|
    ensures |Table| == 48 && InSlot(k, Table[k])
  {
    SegmentsAt();
    if k < 5 {
      ActivationInSlots();
      assert Table[k] == ActivationEntries[k];
    } else if k < 12 {
      ParentDeletionInSlots();
      assert Table[k] == ParentDeletionEntries[k - 5];
    } else if k < 18 {
      ParentConnectionInSlots();
      assert Table[k] == ParentConnectionEntries[k - 12];
    } else if k < 21 {
      ChildDeletionInSlots();
      assert Table[k] == ChildDeletionEntries[k - 18];
    } else if k < 32 {
      InvalidInSlots();
      assert Table[k] == InvalidEntries[k - 21];
    } else if k < 43 {
      ReconcilingInSlots();
      assert Table[k] == ReconcilingEntries[k - 32];
    } else {
      ParentReconcilingInSlots();
      assert Table[k] == ParentReconcilingEntries[k - 43];
    }
  }

  // ---------------------------------------------------------------------------------------------
  // The choice

  /** The states of entry k that rank it, and its handlers. */
  ghost predicate Is(k: nat, oper: Oper, was: Oper, conn: Conn, wasConn: Conn, handlers: seq<Handler>) {
    && k < |Table| && Table[k].current.oper == oper && Table[k].previous.oper == was
    && Table[k].current.conn == conn && Table[k].previous.conn == wasConn && Table[k].handlers == handlers
  }

  /** The chosen entry ranks at least as high as entry k, and higher if k comes first, unless it is exact. */
  ghost predicate Beats(ch: Change, c: nat, k: nat)
    requires c < |Table| && k < |Table|
  {
    IsExact(ch, Table[c]) || (Rank(ch, Table[k]) <= Rank(ch, Table[c]) && (k < c ==> Rank(ch, Table[k]) < Rank(ch, Table[c])))
  }

  /** Entry c is the choice for a change of device type d between admin states a and b with transient state s. */
  ghost predicate IsChosen(ch: Change, c: nat, d: DeviceType, a: Admin, b: Admin, s: Transient) {
    && ch.deviceType == d && IsChange(ch, a, b, s) && |Table| == 48
    && c < |Table| && IsFor(d, Table[c]) && Steady(Table[c], a, b, s) && InSlot(c, Table[c])
  }

  lemma ChosenAppliesHere(ch: Change, choice: Option<nat>)
    requires IsChoice(Ratings(Table, ch), choice) && choice.Some?
    ensures choice.value < |Table| && Applies(ch, Table[choice.value]) && |Table| == 48 && InSlot(choice.value, Table[choice.value])
    ensures Table[choice.value].current.transient == ch.current.transient && IsFor(ch.deviceType, Table[choice.value])
  {
    assert RatedAt(Table, ch, Ratings(Table, ch), choice.value);
    EntryInSlot(choice.value);
    AppliesMeans(ch, Table[choice.value]);
  }

  /** Stable and reconciling entries that apply name the admin states of the change. */
  lemma AppliesIsSteady(ch: Change, t: Transition, k: nat)
    requires Applies(ch, t) && InSlot(k, t) && (ch.current.transient == Stable || ch.current.transient == ReconcileInProgress)
    requires t.current.transient == ch.current.transient
    ensures Steady(t, ch.previous.admin, ch.current.admin, ch.current.transient)
  {
  }

  lemma ChosenIs(ch: Change, choice: Option<nat>, a: Admin, b: Admin, s: Transient)
    requires IsChoice(Ratings(Table, ch), choice) && choice.Some? && IsChange(ch, a, b, s) && (s == Stable || s == ReconcileInProgress)
    ensures IsChosen(ch, choice.value, ch.deviceType, a, b, s)
  {
    ChosenAppliesHere(ch, choice);
    AppliesIsSteady(ch, Table[choice.value], choice.value);
  }

  lemma ChosenBeats(ch: Change, choice: Option<nat>, k: nat, a: Admin, b: Admin, s: Transient)
    requires IsChoice(Ratings(Table, ch), choice) && ch.deviceType != AnyType && IsChange(ch, a, b, s)
    requires (s == Stable || s == ReconcileInProgress) && k < |Table| && Steady(Table[k], a, b, s) && IsFor(ch.deviceType, Table[k])
    ensures choice.Some? && IsChosen(ch, choice.value, ch.deviceType, a, b, s) && Beats(ch, choice.value, k)
  {
    SteadyApplies(ch, Table[k], a, b, s);
    ChosenApplies(ch, choice, k);
    ChosenIs(ch, choice, a, b, s);
    var rs, c := Ratings(Table, ch), choice.value;
    assert RatedAt(Table, ch, rs, k) && RatedAt(Table, ch, rs, c);
    SteadyScore(ch, Table[k], a, b, s);
    SteadyScore(ch, Table[c], a, b, s);
    ChoiceIsUniqueMaximum(rs, choice, choice);
    assert rs[k].score <= rs[c].score;
  }

  ghost predicate EnabledOltEntries() {
    |Table| == 48
    && Is(0, Active, Activating, ConnUnknown, ConnUnknown, [CreateLogicalDevice]) && Steady(Table[0], Enabled, Enabled, Stable) && IsFor(Parent, Table[0])
    && Is(12, OperUnknown, Active, Unreachable, Reachable, []) && Steady(Table[12], Enabled, Enabled, Stable) && IsFor(Parent, Table[12])
    && Is(16, Active, OperUnknown, Reachable, Unreachable, [CreateLogicalDevice]) && Steady(Table[16], Enabled, Enabled, Stable) && IsFor(Parent, Table[16])
    && Is(21, Activating, Active, ConnUnknown, ConnUnknown, [NotifyInvalidTransition]) && Steady(Table[21], Enabled, Enabled, Stable) && IsFor(Parent, Table[21])
    && Is(22, OperUnknown, Activating, ConnUnknown, ConnUnknown, [NotifyInvalidTransition]) && Steady(Table[22], Enabled, Enabled, Stable) && IsFor(Parent, Table[22])
    && Is(27, Activating, Active, ConnUnknown, ConnUnknown, [NotifyInvalidTransition]) && Steady(Table[27], Enabled, Enabled, Stable) && IsFor(Parent, Table[27])
    && Is(28, OperUnknown, Activating, ConnUnknown, ConnUnknown, [NotifyInvalidTransition]) && Steady(Table[28], Enabled, Enabled, Stable) && IsFor(Parent, Table[28])
  }

  lemma EnabledOltEntriesAre()
    ensures EnabledOltEntries()
  {
    SegmentsAt();
    assert Table[0] == ActivationEntries[0];
    assert Table[12] == ParentConnectionEntries[0];
    assert Table[16] == ParentConnectionEntries[4];
    assert Table[21] == InvalidEntries[0];
    assert Table[22] == InvalidEntries[1];
    assert Table[27] == InvalidEntries[6];
    assert Table[28] == InvalidEntries[7];
  }

  lemma EnabledOltCases(ch: Change, c: nat)
    requires ch.deviceType == Parent && IsChosen(ch, c, Parent, Enabled, Enabled, Stable) && EnabledOltEntries()
    requires Beats(ch, c, 0)
    requires Beats(ch, c, 12)
    requires Beats(ch, c, 16)
    requires Beats(ch, c, 21)
    requires Beats(ch, c, 22)
    requires Beats(ch, c, 27)
    requires Beats(ch, c, 28)
    ensures Table[c].handlers == EnabledOlt(ch)
  {
  }

  lemma EnabledOltChosen(ch: Change, choice: Option<nat>)
    requires ch.deviceType == Parent && IsChoice(Ratings(Table, ch), choice) && IsChange(ch, Enabled, Enabled, Stable)
    ensures choice.Some? && choice.value < |Table| && Some(Table[choice.value].handlers) == Expected(ch)
  {
    EnabledOltEntriesAre();
    ChosenBeats(ch, choice, 0, Enabled, Enabled, Stable);
    ChosenBeats(ch, choice, 12, Enabled, Enabled, Stable);
    ChosenBeats(ch, choice, 16, Enabled, Enabled, Stable);
    ChosenBeats(ch, choice, 21, Enabled, Enabled, Stable);
    ChosenBeats(ch, choice, 22, Enabled, Enabled, Stable);
    ChosenBeats(ch, choice, 27, Enabled, Enabled, Stable);
    ChosenBeats(ch, choice, 28, Enabled, Enabled, Stable);
    EnabledOltCases(ch, choice.value);
  }

  ghost predicate EnabledOnuEntries() {
    |Table| == 48
    && Is(1, Activating, Discovered, ConnUnknown, ConnUnknown, []) && Steady(Table[1], Enabled, Enabled, Stable) && IsFor(Child, Table[1])
    && Is(2, Active, Discovered, ConnUnknown, ConnUnknown, [SetupUNILogicalPorts]) && Steady(Table[2], Enabled, Enabled, Stable) && IsFor(Child, Table[2])
    && Is(3, Discovered, Activating, ConnUnknown, ConnUnknown, []) && Steady(Table[3], Enabled, Enabled, Stable) && IsFor(Child, Table[3])
    && Is(4, Active, Activating, ConnUnknown, ConnUnknown, [SetupUNILogicalPorts]) && Steady(Table[4], Enabled, Enabled, Stable) && IsFor(Child, Table[4])
    && Is(21, Activating, Active, ConnUnknown, ConnUnknown, [NotifyInvalidTransition]) && Steady(Table[21], Enabled, Enabled, Stable) && IsFor(Child, Table[21])
    && Is(22, OperUnknown, Activating, ConnUnknown, ConnUnknown, [NotifyInvalidTransition]) && Steady(Table[22], Enabled, Enabled, Stable) && IsFor(Child, Table[22])
    && Is(28, OperUnknown, Activating, ConnUnknown, ConnUnknown, [NotifyInvalidTransition]) && Steady(Table[28], Enabled, Enabled, Stable) && IsFor(Child, Table[28])
  }

  lemma EnabledOnuEntriesAre()
    ensures EnabledOnuEntries()
  {
    SegmentsAt();
    assert Table[1] == ActivationEntries[1];
    assert Table[2] == ActivationEntries[2];
    assert Table[3] == ActivationEntries[3];
    assert Table[4] == ActivationEntries[4];
    assert Table[21] == InvalidEntries[0];
    assert Table[22] == InvalidEntries[1];
    assert Table[28] == InvalidEntries[7];
  }

  lemma EnabledOnuCases(ch: Change, c: nat)
    requires ch.deviceType == Child && IsChosen(ch, c, Child, Enabled, Enabled, Stable) && EnabledOnuEntries()
    requires Beats(ch, c, 1)
    requires Beats(ch, c, 2)
    requires Beats(ch, c, 3)
    requires Beats(ch, c, 4)
    requires Beats(ch, c, 21)
    requires Beats(ch, c, 22)
    requires Beats(ch, c, 28)
    ensures Table[c].handlers == EnabledOnu(ch)
  {
  }

  lemma EnabledOnuChosen(ch: Change, choice: Option<nat>)
    requires ch.deviceType == Child && IsChoice(Ratings(Table, ch), choice) && IsChange(ch, Enabled, Enabled, Stable)
    ensures choice.Some? && choice.value < |Table| && Some(Table[choice.value].handlers) == Expected(ch)
  {
    EnabledOnuEntriesAre();
    ChosenBeats(ch, choice, 1, Enabled, Enabled, Stable);
    ChosenBeats(ch, choice, 2, Enabled, Enabled, Stable);
    ChosenBeats(ch, choice, 3, Enabled, Enabled, Stable);
    ChosenBeats(ch, choice, 4, Enabled, Enabled, Stable);
    ChosenBeats(ch, choice, 21, Enabled, Enabled, Stable);
    ChosenBeats(ch, choice, 22, Enabled, Enabled, Stable);
    ChosenBeats(ch, choice, 28, Enabled, Enabled, Stable);
    EnabledOnuCases(ch, choice.value);
  }

  ghost predicate DisabledOltEntries() {
    |Table| == 48
    && Is(14, Rebooted, OperUnknown, Reachable, Unreachable, Teardown) && Steady(Table[14], Disabled, Disabled, Stable) && IsFor(Parent, Table[14])
    && Is(15, OperUnknown, OperUnknown, Unreachable, Reachable, []) && Steady(Table[15], Disabled, Disabled, Stable) && IsFor(Parent, Table[15])
    && Is(17, OperUnknown, OperUnknown, Reachable, Unreachable, [CreateLogicalDevice]) && Steady(Table[17], Disabled, Disabled, Stable) && IsFor(Parent, Table[17])
  }

  lemma DisabledOltEntriesAre()
    ensures DisabledOltEntries()
  {
    SegmentsAt();
    assert Table[14] == ParentConnectionEntries[2];
    assert Table[15] == ParentConnectionEntries[3];
    assert Table[17] == ParentConnectionEntries[5];
  }

  lemma DisabledOltCases(ch: Change, c: nat)
    requires ch.deviceType == Parent && IsChosen(ch, c, Parent, Disabled, Disabled, Stable) && DisabledOltEntries()
    requires Beats(ch, c, 14)
    requires Beats(ch, c, 15)
    requires Beats(ch, c, 17)
    ensures Table[c].handlers == DisabledOlt(ch)
  {
  }

  lemma DisabledOltChosen(ch: Change, choice: Option<nat>)
    requires ch.deviceType == Parent && IsChoice(Ratings(Table, ch), choice) && IsChange(ch, Disabled, Disabled, Stable)
    ensures choice.Some? && choice.value < |Table| && Some(Table[choice.value].handlers) == Expected(ch)
  {
    DisabledOltEntriesAre();
    ChosenBeats(ch, choice, 14, Disabled, Disabled, Stable);
    ChosenBeats(ch, choice, 15, Disabled, Disabled, Stable);
    ChosenBeats(ch, choice, 17, Disabled, Disabled, Stable);
    DisabledOltCases(ch, choice.value);
  }

  ghost predicate ReconcilingOltEntries() {
    |Table| == 48
    && Is(32, Reconciling, OperUnknown, ConnUnknown, ConnUnknown, []) && Steady(Table[32], Enabled, Enabled, ReconcileInProgress) && IsFor(Parent, Table[32])
    && Is(36, Active, Reconciling, Reachable, ConnUnknown, [ReconcilingCleanup]) && Steady(Table[36], Enabled, Enabled, ReconcileInProgress) && IsFor(Parent, Table[36])
    && Is(37, OperUnknown, Reconciling, Unreachable, ConnUnknown, [ReconcilingCleanup]) && Steady(Table[37], Enabled, Enabled, ReconcileInProgress) && IsFor(Parent, Table[37])
    && Is(40, ReconcilingFailed, Reconciling, ConnUnknown, ConnUnknown, [ReconcilingCleanup]) && Steady(Table[40], Enabled, Enabled, ReconcileInProgress) && IsFor(Parent, Table[40])
    && Is(43, Rebooted, Reconciling, Reachable, Reachable, [ReconcilingCleanup] + Teardown) && Steady(Table[43], Enabled, Enabled, ReconcileInProgress) && IsFor(Parent, Table[43])
    && Is(44, Rebooted, Reconciling, Reachable, Unreachable, [ReconcilingCleanup] + Teardown) && Steady(Table[44], Enabled, Enabled, ReconcileInProgress) && IsFor(Parent, Table[44])
    && Is(45, Reconciling, Rebooted, Unreachable, Reachable, []) && Steady(Table[45], Enabled, Enabled, ReconcileInProgress) && IsFor(Parent, Table[45])
    && Is(46, Reconciling, Reconciling, Reachable, Unreachable, [CreateLogicalDevice]) && Steady(Table[46], Enabled, Enabled, ReconcileInProgress) && IsFor(Parent, Table[46])
    && Is(47, OperUnknown, Active, Unreachable, Reachable, []) && Steady(Table[47], Enabled, Enabled, ReconcileInProgress) && IsFor(Parent, Table[47])
  }

  lemma ReconcilingOltEntriesAre()
    ensures ReconcilingOltEntries()
  {
    SegmentsAt();
    assert Table[32] == ReconcilingEntries[0];
    assert Table[36] == ReconcilingEntries[4];
    assert Table[37] == ReconcilingEntries[5];
    assert Table[40] == ReconcilingEntries[8];
    assert Table[43] == ParentReconcilingEntries[0];
    assert Table[44] == ParentReconcilingEntries[1];
    assert Table[45] == ParentReconcilingEntries[2];
    assert Table[46] == ParentReconcilingEntries[3];
    assert Table[47] == ParentReconcilingEntries[4];
  }

  lemma ReconcilingOltCases(ch: Change, c: nat)
    requires ch.deviceType == Parent && IsChosen(ch, c, Parent, Enabled, Enabled, ReconcileInProgress) && ReconcilingOltEntries()
    requires Beats(ch, c, 32)
    requires Beats(ch, c, 36)
    requires Beats(ch, c, 37)
    requires Beats(ch, c, 40)
    requires Beats(ch, c, 43)
    requires Beats(ch, c, 44)
    requires Beats(ch, c, 45)
    requires Beats(ch, c, 46)
    requires Beats(ch, c, 47)
    ensures Table[c].handlers == ReconcilingOlt(ch)
  {
    if ch.current.oper == Reconciling {
      ReconcilingOltStays(ch, c);
    } else if ch.current.oper == OperUnknown {
      ReconcilingOltLost(ch, c);
    } else if NamedWhileReconciling(ch.current.oper) {
      ReconcilingOltNamed(ch, c);
    } else {
      ReconcilingOltOther(ch, c);
    }
  }

  predicate NamedWhileReconciling(oper: Oper) {
    oper == Reconciling || oper == Active || oper == ReconcilingFailed || oper == OperUnknown
  }

  lemma ReconcilingOltStays(ch: Change, c: nat)
    requires ch.deviceType == Parent && IsChosen(ch, c, Parent, Enabled, Enabled, ReconcileInProgress) && ReconcilingOltEntries()
    requires Beats(ch, c, 32)
    requires Beats(ch, c, 45)
    requires Beats(ch, c, 46)
    requires ch.current.oper == Reconciling
    ensures Table[c].handlers == ReconcilingOlt(ch)
  {
  }

  lemma ReconcilingOltNamed(ch: Change, c: nat)
    requires ch.deviceType == Parent && IsChosen(ch, c, Parent, Enabled, Enabled, ReconcileInProgress) && ReconcilingOltEntries()
    requires Beats(ch, c, 36)
    requires Beats(ch, c, 40)
    requires ch.current.oper == Active || ch.current.oper == ReconcilingFailed
    ensures Table[c].handlers == ReconcilingOlt(ch)
  {
  }

  lemma ReconcilingOltLost(ch: Change, c: nat)
    requires ch.deviceType == Parent && IsChosen(ch, c, Parent, Enabled, Enabled, ReconcileInProgress) && ReconcilingOltEntries()
    requires Beats(ch, c, 37)
    requires Beats(ch, c, 47)
    requires ch.current.oper == OperUnknown
    ensures Table[c].handlers == ReconcilingOlt(ch)
  {
  }

  lemma ReconcilingOltOther(ch: Change, c: nat)
    requires ch.deviceType == Parent && IsChosen(ch, c, Parent, Enabled, Enabled, ReconcileInProgress) && ReconcilingOltEntries()
    requires Beats(ch, c, 32)
    requires Beats(ch, c, 36)
    requires Beats(ch, c, 37)
    requires Beats(ch, c, 40)
    requires Beats(ch, c, 43)
    requires Beats(ch, c, 44)
    requires Beats(ch, c, 45)
    requires Beats(ch, c, 46)
    requires Beats(ch, c, 47)
    requires !NamedWhileReconciling(ch.current.oper)
    ensures Table[c].handlers == ReconcilingOlt(ch)
  {
  }

  lemma ReconcilingOltChosen(ch: Change, choice: Option<nat>)
    requires ch.deviceType == Parent && IsChoice(Ratings(Table, ch), choice) && IsChange(ch, Enabled, Enabled, ReconcileInProgress)
    ensures choice.Some? && choice.value < |Table| && Some(Table[choice.value].handlers) == Expected(ch)
  {
    ReconcilingOltEntriesAre();
    ChosenBeats(ch, choice, 32, Enabled, Enabled, ReconcileInProgress);
    ChosenBeats(ch, choice, 36, Enabled, Enabled, ReconcileInProgress);
    ChosenBeats(ch, choice, 37, Enabled, Enabled, ReconcileInProgress);
    ChosenBeats(ch, choice, 40, Enabled, Enabled, ReconcileInProgress);
    ChosenBeats(ch, choice, 43, Enabled, Enabled, ReconcileInProgress);
    ChosenBeats(ch, choice, 44, Enabled, Enabled, ReconcileInProgress);
    ChosenBeats(ch, choice, 45, Enabled, Enabled, ReconcileInProgress);
    ChosenBeats(ch, choice, 46, Enabled, Enabled, ReconcileInProgress);
    ChosenBeats(ch, choice, 47, Enabled, Enabled, ReconcileInProgress);
    ReconcilingOltCases(ch, choice.value);
  }

  ghost predicate ReconcilingOnuEntries() {
    |Table| == 48
    && Is(32, Reconciling, OperUnknown, ConnUnknown, ConnUnknown, []) && Steady(Table[32], Enabled, Enabled, ReconcileInProgress) && IsFor(Child, Table[32])
    && Is(36, Active, Reconciling, Reachable, ConnUnknown, [ReconcilingCleanup]) && Steady(Table[36], Enabled, Enabled, ReconcileInProgress) && IsFor(Child, Table[36])
    && Is(37, OperUnknown, Reconciling, Unreachable, ConnUnknown, [ReconcilingCleanup]) && Steady(Table[37], Enabled, Enabled, ReconcileInProgress) && IsFor(Child, Table[37])
    && Is(40, ReconcilingFailed, Reconciling, ConnUnknown, ConnUnknown, [ReconcilingCleanup]) && Steady(Table[40], Enabled, Enabled, ReconcileInProgress) && IsFor(Child, Table[40])
  }

  lemma ReconcilingOnuEntriesAre()
    ensures ReconcilingOnuEntries()
  {
    SegmentsAt();
    assert Table[32] == ReconcilingEntries[0];
    assert Table[36] == ReconcilingEntries[4];
    assert Table[37] == ReconcilingEntries[5];
    assert Table[40] == ReconcilingEntries[8];
  }

  lemma ReconcilingOnuCases(ch: Change, c: nat)
    requires ch.deviceType == Child && IsChosen(ch, c, Child, Enabled, Enabled, ReconcileInProgress) && ReconcilingOnuEntries()
    requires Beats(ch, c, 32)
    requires Beats(ch, c, 36)
    requires Beats(ch, c, 37)
    requires Beats(ch, c, 40)
    ensures Table[c].handlers == ReconcilingOnu(ch)
  {
  }

  lemma ReconcilingOnuChosen(ch: Change, choice: Option<nat>)
    requires ch.deviceType == Child && IsChoice(Ratings(Table, ch), choice) && IsChange(ch, Enabled, Enabled, ReconcileInProgress)
    ensures choice.Some? && choice.value < |Table| && Some(Table[choice.value].handlers) == Expected(ch)
  {
    ReconcilingOnuEntriesAre();
    ChosenBeats(ch, choice, 32, Enabled, Enabled, ReconcileInProgress);
    ChosenBeats(ch, choice, 36, Enabled, Enabled, ReconcileInProgress);
    ChosenBeats(ch, choice, 37, Enabled, Enabled, ReconcileInProgress);
    ChosenBeats(ch, choice, 40, Enabled, Enabled, ReconcileInProgress);
    ReconcilingOnuCases(ch, choice.value);
  }

  ghost predicate ReconcilingDisabledEntries() {
    |Table| == 48
    && Is(33, Reconciling, OperUnknown, ConnUnknown, ConnUnknown, []) && Steady(Table[33], Disabled, Disabled, ReconcileInProgress) && Table[33].deviceType == AnyType
    && Is(38, OperUnknown, Reconciling, Unreachable, ConnUnknown, [ReconcilingCleanup]) && Steady(Table[38], Disabled, Disabled, ReconcileInProgress) && Table[38].deviceType == AnyType
    && Is(41, ReconcilingFailed, Reconciling, ConnUnknown, ConnUnknown, [ReconcilingCleanup]) && Steady(Table[41], Disabled, Disabled, ReconcileInProgress) && Table[41].deviceType == AnyType
  }

  lemma ReconcilingDisabledEntriesAre()
    ensures ReconcilingDisabledEntries()
  {
    SegmentsAt();
    assert Table[33] == ReconcilingEntries[1];
    assert Table[38] == ReconcilingEntries[6];
    assert Table[41] == ReconcilingEntries[9];
  }

  lemma ReconcilingDisabledCases(ch: Change, c: nat)
    requires ch.deviceType != AnyType && IsChosen(ch, c, ch.deviceType, Disabled, Disabled, ReconcileInProgress) && ReconcilingDisabledEntries()
    requires Beats(ch, c, 33)
    requires Beats(ch, c, 38)
    requires Beats(ch, c, 41)
    ensures WhenReconciling(ch).Some? && Table[c].handlers == WhenReconciling(ch).value
  {
  }

  lemma ReconcilingDisabledChosen(ch: Change, choice: Option<nat>)
    requires ch.deviceType != AnyType && IsChoice(Ratings(Table, ch), choice) && IsChange(ch, Disabled, Disabled, ReconcileInProgress)
    ensures choice.Some? && choice.value < |Table| && Some(Table[choice.value].handlers) == Expected(ch)
  {
    ReconcilingDisabledEntriesAre();
    ChosenBeats(ch, choice, 33, Disabled, Disabled, ReconcileInProgress);
    ChosenBeats(ch, choice, 38, Disabled, Disabled, ReconcileInProgress);
    ChosenBeats(ch, choice, 41, Disabled, Disabled, ReconcileInProgress);
    ReconcilingDisabledCases(ch, choice.value);
  }

  ghost predicate ReconcilingDownloadEntries() {
    |Table| == 48
    && Is(35, Reconciling, OperUnknown, ConnUnknown, ConnUnknown, []) && Steady(Table[35], DownloadingImage, DownloadingImage, ReconcileInProgress) && Table[35].deviceType == AnyType
    && Is(39, OperUnknown, Reconciling, ConnUnknown, ConnUnknown, [ReconcilingCleanup]) && Steady(Table[39], DownloadingImage, DownloadingImage, ReconcileInProgress) && Table[39].deviceType == AnyType
    && Is(42, ReconcilingFailed, Reconciling, ConnUnknown, ConnUnknown, [ReconcilingCleanup]) && Steady(Table[42], DownloadingImage, DownloadingImage, ReconcileInProgress) && Table[42].deviceType == AnyType
  }

  lemma ReconcilingDownloadEntriesAre()
    ensures ReconcilingDownloadEntries()
  {
    SegmentsAt();
    assert Table[35] == ReconcilingEntries[3];
    assert Table[39] == ReconcilingEntries[7];
    assert Table[42] == ReconcilingEntries[10];
  }

  lemma ReconcilingDownloadCases(ch: Change, c: nat)
    requires ch.deviceType != AnyType && IsChosen(ch, c, ch.deviceType, DownloadingImage, DownloadingImage, ReconcileInProgress) && ReconcilingDownloadEntries()
    requires Beats(ch, c, 35)
    requires Beats(ch, c, 39)
    requires Beats(ch, c, 42)
    ensures WhenReconciling(ch).Some? && Table[c].handlers == WhenReconciling(ch).value
  {
  }

  lemma ReconcilingDownloadChosen(ch: Change, choice: Option<nat>)
    requires ch.deviceType != AnyType && IsChoice(Ratings(Table, ch), choice) && IsChange(ch, DownloadingImage, DownloadingImage, ReconcileInProgress)
    ensures choice.Some? && choice.value < |Table| && Some(Table[choice.value].handlers) == Expected(ch)
  {
    ReconcilingDownloadEntriesAre();
    ChosenBeats(ch, choice, 35, DownloadingImage, DownloadingImage, ReconcileInProgress);
    ChosenBeats(ch, choice, 39, DownloadingImage, DownloadingImage, ReconcileInProgress);
    ChosenBeats(ch, choice, 42, DownloadingImage, DownloadingImage, ReconcileInProgress);
    ReconcilingDownloadCases(ch, choice.value);
  }

  // The pairs of admin states that have one entry.

  ghost predicate IsOnly(k: nat, d: DeviceType, a: Admin, b: Admin, s: Transient, handlers: seq<Handler>) {
    && k < |Table| && Steady(Table[k], a, b, s) && IsFor(d, Table[k]) && Table[k].handlers == handlers
  }

  lemma InvalidOnly(d: DeviceType)
    requires d != AnyType
    ensures IsOnly(23, d, Preprovisioned, AdminUnknown, Stable, [NotifyInvalidTransition])
    ensures IsOnly(26, d, Enabled, AdminUnknown, Stable, [NotifyInvalidTransition])
    ensures IsOnly(29, d, Enabled, Preprovisioned, Stable, [NotifyInvalidTransition])
    ensures IsOnly(31, d, Disabled, Preprovisioned, Stable, [NotifyInvalidTransition])
    ensures IsOnly(34, d, Preprovisioned, Preprovisioned, ReconcileInProgress, [])
  {
    SegmentsAt();
    assert Table[23] == InvalidEntries[2] && Table[26] == InvalidEntries[5] && Table[29] == InvalidEntries[8] && Table[31] == InvalidEntries[10];
    assert Table[34] == ReconcilingEntries[2];
  }

  lemma OnuOnly()
    ensures IsOnly(30, Child, Disabled, AdminUnknown, Stable, [NotifyInvalidTransition])
    ensures IsOnly(24, Child, Enabled, DownloadingImage, Stable, [])
    ensures IsOnly(25, Child, DownloadingImage, Enabled, Stable, [])
  {
    SegmentsAt();
    assert Table[24] == InvalidEntries[3] && Table[25] == InvalidEntries[4] && Table[30] == InvalidEntries[9];
  }

  /** The slot of a change between these admin states. */
  function OnlySlot(a: Admin, b: Admin, s: Transient): Option<nat> {
    if s == Stable then
      if a == Preprovisioned && b == AdminUnknown then Some(23)
      else if a == Enabled && b == AdminUnknown then Some(26)
      else if a == Disabled && b == AdminUnknown then Some(30)
      else if a == Enabled && b == Preprovisioned then Some(29)
      else if a == Disabled && b == Preprovisioned then Some(31)
      else if a == Enabled && b == DownloadingImage then Some(24)
      else if a == DownloadingImage && b == Enabled then Some(25)
      else None
    else if s == ReconcileInProgress && a == Preprovisioned && b == Preprovisioned then Some(34)
    else None
  }

  lemma OnlyChosen(ch: Change, choice: Option<nat>)
    requires ch.deviceType != AnyType && IsChoice(Ratings(Table, ch), choice)
    requires OnlySlot(ch.previous.admin, ch.current.admin, ch.current.transient).Some? && Expected(ch).Some?
    ensures choice.Some? && choice.value < |Table| && Some(Table[choice.value].handlers) == Expected(ch)
  {
    var a, b, s := ch.previous.admin, ch.current.admin, ch.current.transient;
    var k := OnlySlot(a, b, s).value;
    InvalidOnly(ch.deviceType);
    OnuOnly();
    assert IsOnly(k, ch.deviceType, a, b, s, Expected(ch).value);
    ChosenBeats(ch, choice, k, a, b, s);
    OnlyOne(ch, choice.value, k);
  }

  lemma OnlyOne(ch: Change, c: nat, k: nat)
    requires ch.deviceType != AnyType && OnlySlot(ch.previous.admin, ch.current.admin, ch.current.transient) == Some(k)
    requires IsChosen(ch, c, ch.deviceType, ch.previous.admin, ch.current.admin, ch.current.transient)
    ensures c == k
  {
  }

  lemma RebootEntry()
    ensures |Table| == 48 && Table[13].deviceType == Parent && Table[13].handlers == Teardown + [ClearDeviceTransientState]
    ensures Table[13].previous == DeviceState(Enabled, Unreachable, OperUnknown, Stable)
    ensures Table[13].current == DeviceState(Enabled, Reachable, Rebooted, RebootInProgress)
  {
    SegmentsAt();
    assert Table[13] == ParentConnectionEntries[1];
  }

  lemma RebootChosen(ch: Change, choice: Option<nat>)
    requires ch.deviceType != AnyType && IsChoice(Ratings(Table, ch), choice) && ch.current.transient == RebootInProgress
    ensures choice.Some? ==> choice.value < |Table|
    ensures (if choice.Some? then Some(Table[choice.value].handlers) else None) == Expected(ch)
  {
    RebootEntry();
    assert Applies(ch, Table[13]) <==> ch.deviceType == Parent && ch.previous.admin == Enabled && ch.current.admin == Enabled;
    if choice.Some? {
      ChosenAppliesHere(ch, choice);
    } else {
      assert RatedAt(Table, ch, Ratings(Table, ch), 13);
    }
  }

  /** Where nothing is expected, no entry applies. */
  lemma NothingChosen(ch: Change, choice: Option<nat>)
    requires ch.deviceType != AnyType && IsChoice(Ratings(Table, ch), choice) && Expected(ch).None? && ch.current.transient != RebootInProgress
    ensures choice.None?
  {
    if choice.Some? {
      ChosenAppliesHere(ch, choice);
      if ch.current.transient == Stable || ch.current.transient == ReconcileInProgress {
        AppliesIsSteady(ch, Table[choice.value], choice.value);
      }
      assert false;
    }
  }

  lemma DeletionChosen(ch: Change, choice: Option<nat>)
    requires ch.deviceType != AnyType && IsChoice(Ratings(Table, ch), choice)
    requires IsFinalDeletion(ch.current.transient) || ch.current.transient == DeletingFromAdapter
    ensures choice.Some? && choice.value < |Table| && Some(Table[choice.value].handlers) == Expected(ch)
  {
    if IsFinalDeletion(ch.current.transient) {
      FinalDeletionRunsPostDelete(ch, choice);
    } else {
      WaitingForAdapterRunsNothing(ch, choice);
    }
  }

  lemma ReconcilingChosen(ch: Change, choice: Option<nat>)
    requires ch.deviceType != AnyType && IsChoice(Ratings(Table, ch), choice) && ch.current.transient == ReconcileInProgress && Expected(ch).Some?
    ensures choice.Some? && choice.value < |Table| && Some(Table[choice.value].handlers) == Expected(ch)
  {
    match ch.previous.admin
    case Enabled =>
      if ch.deviceType == Parent {
        ReconcilingOltChosen(ch, choice);
      } else {
        ReconcilingOnuChosen(ch, choice);
      }
    case Disabled => ReconcilingDisabledChosen(ch, choice);
    case DownloadingImage => ReconcilingDownloadChosen(ch, choice);
    case Preprovisioned => OnlyChosen(ch, choice);
    case AdminUnknown =>
  }

  lemma StableChosen(ch: Change, choice: Option<nat>)
    requires ch.deviceType != AnyType && IsChoice(Ratings(Table, ch), choice) && ch.current.transient == Stable && Expected(ch).Some?
    ensures choice.Some? && choice.value < |Table| && Some(Table[choice.value].handlers) == Expected(ch)
  {
    var a, b := ch.previous.admin, ch.current.admin;
    if a == Enabled && b == Enabled {
      if ch.deviceType == Parent {
        EnabledOltChosen(ch, choice);
      } else {
        EnabledOnuChosen(ch, choice);
      }
    } else if a == Disabled && b == Disabled {
      DisabledOltChosen(ch, choice);
    } else {
      OnlyChosen(ch, choice);
    }
  }

  /**
   For every change of every device, all states included, the handlers that the table selects are exactly the
   expected ones, and none are selected exactly where none are expected.
   */
  lemma HandlersAreExpected(ch: Change, choice: Option<nat>)
    requires ch.deviceType != AnyType && IsChoice(Ratings(Table, ch), choice)
    ensures choice.Some? ==> choice.value < |Table|
    ensures (if choice.Some? then Some(Table[choice.value].handlers) else None) == Expected(ch)
  {
    if ch.current.transient == RebootInProgress {
      RebootChosen(ch, choice);
    } else if Expected(ch).None? {
      NothingChosen(ch, choice);
    } else if ch.current.transient == Stable {
      StableChosen(ch, choice);
    } else if ch.current.transient == ReconcileInProgress {
      ReconcilingChosen(ch, choice);
    } else {
      DeletionChosen(ch, choice);
    }
  }

  /** getTransitionHandler and ProcessTransition on the real table: exactly the expected handlers run, in order, until one fails. */
  method RunTransition(ch: Change, fails: set<Handler>) returns (failed: Option<Handler>, ran: seq<Handler>)
    requires ch.deviceType != AnyType
    ensures ch.previous == ch.current ==> ran == [] && failed.None?
    ensures ch.previous != ch.current ==>
      var expected := if Expected(ch).Some? then Expected(ch).value else [];
      && ran <= expected
      && (failed.None? ==> ran == expected && forall h <- expected :: h !in fails)
      && (failed.Some? ==> failed.value in fails && ran != [] && ran[|ran| - 1] == failed.value)
  {
    ghost var choice;
    failed, ran, choice := ProcessTransition(Table, ch, fails);
    if ch.previous != ch.current {
      HandlersAreExpected(ch, choice);
    }
  }

  // ---------------------------------------------------------------------------------------------
  // What that means for each kind of work

  /** Handler h is among those selected. */
  ghost predicate Selects(choice: Option<nat>, h: Handler) {
    choice.Some? && choice.value < |Table| && h in Table[choice.value].handlers
  }

  ghost predicate IsExpected(ch: Change, h: Handler) {
    Expected(ch).Some? && h in Expected(ch).value
  }

  lemma SelectsExpected(ch: Change, choice: Option<nat>, h: Handler)
    requires ch.deviceType != AnyType && IsChoice(Ratings(Table, ch), choice)
    ensures Selects(choice, h) <==> IsExpected(ch, h)
  {
    HandlersAreExpected(ch, choice);
  }

  predicate IsTeardown(h: Handler) {
    match h
    case DeleteAllLogicalPorts => true
    case DeleteAllChildDevices => true
    case DeleteAllLogicalMeters => true
    case DeleteLogicalDevice => true
    case DeleteAllDeviceFlows => true
    case _ => false
  }

  lemma InTeardown(h: Handler)
    ensures h in Teardown <==> IsTeardown(h)
    ensures h in [ReconcilingCleanup] + Teardown <==> h == ReconcilingCleanup || IsTeardown(h)
    ensures h in Teardown + [ClearDeviceTransientState] <==> h == ClearDeviceTransientState || IsTeardown(h)
  {
    assert Teardown[0] == DeleteAllLogicalPorts && Teardown[1] == DeleteAllChildDevices && Teardown[2] == DeleteAllLogicalMeters;
    assert Teardown[3] == DeleteLogicalDevice && Teardown[4] == DeleteAllDeviceFlows;
  }

  /** None of these has a part in deleting a device for good. */
  predicate IsUpkeep(h: Handler) {
    match h
    case NotifyInvalidTransition => true
    case CreateLogicalDevice => true
    case SetupUNILogicalPorts => true
    case DeleteLogicalDevice => true
    case ReconcilingCleanup => true
    case ClearDeviceTransientState => true
    case _ => false
  }

  lemma NotInDeletion(ch: Change, h: Handler)
    requires IsUpkeep(h)
    ensures h !in Deletion(ch)
  {
  }

  predicate Both(ch: Change, admin: Admin) {
    ch.previous.admin == admin && ch.current.admin == admin
  }

  predicate UniPortsDue(ch: Change) {
    ch.deviceType == Child && ch.current.transient == Stable && Both(ch, Enabled) && ch.current.oper == Active
  }

  lemma UniPortsDueIsExpected(ch: Change)
    requires ch.deviceType != AnyType
    ensures IsExpected(ch, SetupUNILogicalPorts) <==> UniPortsDue(ch)
  {
    InTeardown(SetupUNILogicalPorts);
    NotInDeletion(ch, SetupUNILogicalPorts);
  }

  /** An ONU's UNI ports are set up exactly when it is enabled before and after, active now, and no transient state is left. */
  lemma UniPortsAreSetUpIff(ch: Change, choice: Option<nat>)
    requires ch.deviceType != AnyType && IsChoice(Ratings(Table, ch), choice)
    ensures Selects(choice, SetupUNILogicalPorts) <==> UniPortsDue(ch)
  {
    SelectsExpected(ch, choice, SetupUNILogicalPorts);
    UniPortsDueIsExpected(ch);
  }

  predicate CreationDue(ch: Change) {
    var oper, conn, was := ch.current.oper, ch.current.conn, ch.previous.oper;
    ch.deviceType == Parent &&
    (|| (ch.current.transient == Stable && Both(ch, Enabled)
         && (oper == Active || (oper != OperUnknown && oper != Activating && conn != Unreachable)))
     || (ch.current.transient == Stable && Both(ch, Disabled) && oper == OperUnknown && conn == Reachable)
     || (ch.current.transient == ReconcileInProgress && Both(ch, Enabled) && oper == Reconciling
         && (was == Reconciling || (was != Rebooted && conn == Reachable))))
  }

  lemma CreationDueIsExpected(ch: Change)
    requires ch.deviceType != AnyType
    ensures IsExpected(ch, CreateLogicalDevice) <==> CreationDue(ch)
  {
    InTeardown(CreateLogicalDevice);
    NotInDeletion(ch, CreateLogicalDevice);
  }

  /**
   Exactly when an OLT's logical device is created.  It includes changes into TESTING, FAILED or REBOOTED of an
   OLT that stays enabled and is not unreachable.
   */
  lemma LogicalDeviceIsCreatedIff(ch: Change, choice: Option<nat>)
    requires ch.deviceType != AnyType && IsChoice(Ratings(Table, ch), choice)
    ensures Selects(choice, CreateLogicalDevice) <==> CreationDue(ch)
  {
    SelectsExpected(ch, choice, CreateLogicalDevice);
    CreationDueIsExpected(ch);
  }

  predicate TeardownDue(ch: Change) {
    var oper, conn := ch.current.oper, ch.current.conn;
    ch.deviceType == Parent &&
    (|| (ch.current.transient == RebootInProgress && Both(ch, Enabled))
     || (ch.current.transient == Stable && Both(ch, Disabled) && oper != OperUnknown && (oper == Rebooted || conn != Unreachable))
     || (ch.current.transient == ReconcileInProgress && Both(ch, Enabled)
         && !NamedWhileReconciling(oper) && (oper == Rebooted || conn == Reachable)))
  }

  lemma TeardownDueIsExpected(ch: Change)
    requires ch.deviceType != AnyType
    ensures IsExpected(ch, DeleteLogicalDevice) <==> TeardownDue(ch)
  {
    InTeardown(DeleteLogicalDevice);
    NotInDeletion(ch, DeleteLogicalDevice);
  }

  /**
   Exactly when an OLT's logical device is deleted: after a reboot, enabled, disabled or while reconciling.  It
   includes other operational states of an OLT that is disabled and not unreachable, or reconciled and reachable.
   */
  lemma LogicalDeviceIsDeletedIff(ch: Change, choice: Option<nat>)
    requires ch.deviceType != AnyType && IsChoice(Ratings(Table, ch), choice)
    ensures Selects(choice, DeleteLogicalDevice) <==> TeardownDue(ch)
  {
    SelectsExpected(ch, choice, DeleteLogicalDevice);
    TeardownDueIsExpected(ch);
  }

  predicate ClearDue(ch: Change) {
    ch.deviceType == Parent && ch.current.transient == RebootInProgress && Both(ch, Enabled)
  }

  lemma ClearDueIsExpected(ch: Change)
    requires ch.deviceType != AnyType
    ensures IsExpected(ch, ClearDeviceTransientState) <==> ClearDue(ch)
  {
    InTeardown(ClearDeviceTransientState);
    NotInDeletion(ch, ClearDeviceTransientState);
  }

  /** The transient state is cleared exactly after the reboot of an enabled OLT. */
  lemma TransientStateIsClearedIff(ch: Change, choice: Option<nat>)
    requires ch.deviceType != AnyType && IsChoice(Ratings(Table, ch), choice)
    ensures Selects(choice, ClearDeviceTransientState) <==> ClearDue(ch)
  {
    SelectsExpected(ch, choice, ClearDeviceTransientState);
    ClearDueIsExpected(ch);
  }

  predicate CleanupDue(ch: Change) {
    var oper, conn, was := ch.current.oper, ch.current.conn, ch.previous.oper;
    ch.current.transient == ReconcileInProgress && oper != Reconciling &&
    (|| (Both(ch, DownloadingImage) && (oper == OperUnknown || oper == ReconcilingFailed))
     || (Both(ch, Disabled) && (oper == OperUnknown || oper == ReconcilingFailed || conn == Unreachable))
     || (Both(ch, Enabled) && (oper == Active || oper == ReconcilingFailed))
     || (Both(ch, Enabled) && ch.deviceType == Child && (oper == OperUnknown || conn != ConnUnknown))
     || (Both(ch, Enabled) && ch.deviceType == Parent && oper == OperUnknown
         && (was == Reconciling || (was != Active && conn != Unreachable)))
     || (Both(ch, Enabled) && ch.deviceType == Parent && oper != OperUnknown && (oper == Rebooted || conn == Reachable)))
  }

  lemma CleanupDueIsExpected(ch: Change)
    requires ch.deviceType != AnyType
    ensures IsExpected(ch, ReconcilingCleanup) <==> CleanupDue(ch)
  {
    InTeardown(ReconcilingCleanup);
    NotInDeletion(ch, ReconcilingCleanup);
  }

  /** Exactly when reconciling is cleaned up. */
  lemma ReconcilingIsCleanedUpIff(ch: Change, choice: Option<nat>)
    requires ch.deviceType != AnyType && IsChoice(Ratings(Table, ch), choice)
    ensures Selects(choice, ReconcilingCleanup) <==> CleanupDue(ch)
  {
    SelectsExpected(ch, choice, ReconcilingCleanup);
    CleanupDueIsExpected(ch);
  }

  predicate NoticeDue(ch: Change) {
    var a, b, oper, was := ch.previous.admin, ch.current.admin, ch.current.oper, ch.previous.oper;
    ch.current.transient == Stable &&
    (|| (b == AdminUnknown && (a == Preprovisioned || a == Enabled || (a == Disabled && ch.deviceType == Child)))
     || (b == Preprovisioned && (a == Enabled || a == Disabled))
     || (Both(ch, Enabled) && ch.deviceType == Child && (oper == OperUnknown || (oper == Activating && was == Active)))
     || (Both(ch, Enabled) && ch.deviceType == Parent
         && (oper == Activating || (oper == OperUnknown && was != Active && (was == Activating || ch.current.conn == ConnUnknown)))))
  }

  lemma NoticeDueIsExpected(ch: Change)
    requires ch.deviceType != AnyType
    ensures IsExpected(ch, NotifyInvalidTransition) <==> NoticeDue(ch)
  {
    InTeardown(NotifyInvalidTransition);
    NotInDeletion(ch, NotifyInvalidTransition);
  }

  /** Exactly when a change is reported as invalid. */
  lemma InvalidIsNotifiedIff(ch: Change, choice: Option<nat>)
    requires ch.deviceType != AnyType && IsChoice(Ratings(Table, ch), choice)
    ensures Selects(choice, NotifyInvalidTransition) <==> NoticeDue(ch)
  {
    SelectsExpected(ch, choice, NotifyInvalidTransition);
    NoticeDueIsExpected(ch);
  }

  /**
   With the logical device everything under it goes, in this order: logical ports, child devices and meters
   before it, device flows after it; the transient state is cleared last, exactly after RebootInProgress.
   */
  lemma TeardownIsComplete(ch: Change, choice: Option<nat>)
    requires ch.deviceType != AnyType && IsChoice(Ratings(Table, ch), choice) && Selects(choice, DeleteLogicalDevice)
    ensures Table[choice.value].handlers ==
            (if ch.current.transient == ReconcileInProgress then [ReconcilingCleanup] else [])
            + [DeleteAllLogicalPorts, DeleteAllChildDevices, DeleteAllLogicalMeters, DeleteLogicalDevice, DeleteAllDeviceFlows]
            + (if ch.current.transient == RebootInProgress then [ClearDeviceTransientState] else [])
  {
    HandlersAreExpected(ch, choice);
    LogicalDeviceIsDeletedIff(ch, choice);
    WholeTeardown(ch);
  }

  lemma WholeTeardown(ch: Change)
    requires ch.deviceType != AnyType && TeardownDue(ch)
    ensures Expected(ch) ==
            Some((if ch.current.transient == ReconcileInProgress then [ReconcilingCleanup] else [])
                 + [DeleteAllLogicalPorts, DeleteAllChildDevices, DeleteAllLogicalMeters, DeleteLogicalDevice, DeleteAllDeviceFlows]
                 + (if ch.current.transient == RebootInProgress then [ClearDeviceTransientState] else []))
  {
    assert [] + Teardown == Teardown && Teardown + [] == Teardown && [ReconcilingCleanup] + Teardown + [] == [ReconcilingCleanup] + Teardown;
  }

  /** Into FAILED, from active, an OLT that is enabled and reachable has its logical device created. */
  lemma FailedOltGetsLogicalDevice(choice: Option<nat>)
    requires var ch := Change(Parent, DeviceState(Enabled, Reachable, Active, Stable), DeviceState(Enabled, Reachable, Failed, Stable));
             IsChoice(Ratings(Table, ch), choice)
    ensures Selects(choice, CreateLogicalDevice)
  {
    LogicalDeviceIsCreatedIff(Change(Parent, DeviceState(Enabled, Reachable, Active, Stable), DeviceState(Enabled, Reachable, Failed, Stable)), choice);
  }
}
