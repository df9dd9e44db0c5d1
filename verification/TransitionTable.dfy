/** The device state transition table: every entry, in the order in which the entries are tried. */
module TransitionTable {

  datatype DeviceType = Parent | Child | AnyType

  datatype Admin = AdminUnknown | Preprovisioned | Enabled | Disabled | DownloadingImage

  datatype Conn = ConnUnknown | Unreachable | Reachable

  datatype Oper =
    | OperUnknown | Discovered | Activating | Testing | Active | Failed | Reconciling | ReconcilingFailed | Rebooted

  datatype Transient =
    | Stable | AnyTransient | ForceDeleting | DeletingFromAdapter | DeletingPostAdapterResponse | DeleteFailed
    | ReconcileInProgress | RebootInProgress

  datatype DeviceState = DeviceState(admin: Admin, conn: Conn, oper: Oper, transient: Transient)

  datatype Handler =
    | NotifyInvalidTransition | CreateLogicalDevice | SetupUNILogicalPorts | DeleteLogicalDevice | DeleteLogicalPorts
    | DeleteAllChildDevices | RunPostDeviceDelete | ChildDeviceLost | DeleteAllLogicalPorts | DeleteAllLogicalMeters
    | DeleteAllDeviceFlows | ReconcilingCleanup | ClearDeviceTransientState

  datatype Transition = Transition(deviceType: DeviceType, previous: DeviceState, current: DeviceState, handlers: seq<Handler>)

  /** A device comes up. */
  const ActivationEntries: seq<Transition> :=
    [
      Transition(Parent, DeviceState(Enabled, ConnUnknown, Activating, Stable),
                 DeviceState(Enabled, ConnUnknown, Active, Stable),
                 [CreateLogicalDevice]),
      Transition(Child, DeviceState(Enabled, ConnUnknown, Discovered, Stable),
                 DeviceState(Enabled, ConnUnknown, Activating, Stable),
                 []),
      Transition(Child, DeviceState(Enabled, ConnUnknown, Discovered, Stable),
                 DeviceState(Enabled, ConnUnknown, Active, Stable),
                 [SetupUNILogicalPorts]),
      Transition(Child, DeviceState(Enabled, ConnUnknown, Activating, Stable),
                 DeviceState(Enabled, ConnUnknown, Discovered, Stable),
                 []),
      Transition(Child, DeviceState(Enabled, ConnUnknown, Activating, Stable),
                 DeviceState(Enabled, ConnUnknown, Active, Stable),
                 [SetupUNILogicalPorts])
    ]

  /** Deleting a preprovisioned device of either type, and any OLT. */
  const ParentDeletionEntries: seq<Transition> :=
    [
      Transition(Parent, DeviceState(Preprovisioned, ConnUnknown, OperUnknown, AnyTransient),
                 DeviceState(Preprovisioned, ConnUnknown, OperUnknown, ForceDeleting),
                 [RunPostDeviceDelete]),
      Transition(Parent, DeviceState(Preprovisioned, ConnUnknown, OperUnknown, AnyTransient),
                 DeviceState(Preprovisioned, ConnUnknown, OperUnknown, DeletingPostAdapterResponse),
                 [RunPostDeviceDelete]),
      Transition(Child, DeviceState(Preprovisioned, ConnUnknown, OperUnknown, AnyTransient),
                 DeviceState(Preprovisioned, ConnUnknown, OperUnknown, ForceDeleting),
                 [ChildDeviceLost, RunPostDeviceDelete]),
      Transition(Child, DeviceState(Preprovisioned, ConnUnknown, OperUnknown, AnyTransient),
                 DeviceState(Preprovisioned, ConnUnknown, OperUnknown, DeletingPostAdapterResponse),
                 [ChildDeviceLost, RunPostDeviceDelete]),
      Transition(Parent, DeviceState(AdminUnknown, ConnUnknown, OperUnknown, AnyTransient),
                 DeviceState(AdminUnknown, ConnUnknown, OperUnknown, ForceDeleting),
                 [DeleteAllLogicalPorts, DeleteAllChildDevices, DeleteAllLogicalMeters, RunPostDeviceDelete]),
      Transition(Parent, DeviceState(AdminUnknown, ConnUnknown, OperUnknown, AnyTransient),
                 DeviceState(AdminUnknown, ConnUnknown, OperUnknown, DeletingPostAdapterResponse),
                 [DeleteAllLogicalPorts, DeleteAllChildDevices, DeleteAllLogicalMeters, RunPostDeviceDelete]),
      Transition(Parent, DeviceState(AdminUnknown, ConnUnknown, OperUnknown, AnyTransient),
                 DeviceState(AdminUnknown, ConnUnknown, OperUnknown, DeletingFromAdapter),
                 [])
    ]

  /** An OLT loses, regains or reboots its connection. */
  const ParentConnectionEntries: seq<Transition> :=
    [
      Transition(Parent, DeviceState(Enabled, Reachable, Active, Stable),
                 DeviceState(Enabled, Unreachable, OperUnknown, Stable),
                 []),
      Transition(Parent, DeviceState(Enabled, Unreachable, OperUnknown, Stable),
                 DeviceState(Enabled, Reachable, Rebooted, RebootInProgress),
                 [DeleteAllLogicalPorts, DeleteAllChildDevices, DeleteAllLogicalMeters, DeleteLogicalDevice, DeleteAllDeviceFlows, ClearDeviceTransientState]),
      Transition(Parent, DeviceState(Disabled, Unreachable, OperUnknown, Stable),
                 DeviceState(Disabled, Reachable, Rebooted, Stable),
                 [DeleteAllLogicalPorts, DeleteAllChildDevices, DeleteAllLogicalMeters, DeleteLogicalDevice, DeleteAllDeviceFlows]),
      Transition(Parent, DeviceState(Disabled, Reachable, OperUnknown, Stable),
                 DeviceState(Disabled, Unreachable, OperUnknown, Stable),
                 []),
      Transition(Parent, DeviceState(Enabled, Unreachable, OperUnknown, Stable),
                 DeviceState(Enabled, Reachable, Active, Stable),
                 [CreateLogicalDevice]),
      Transition(Parent, DeviceState(Disabled, Unreachable, OperUnknown, Stable),
                 DeviceState(Disabled, Reachable, OperUnknown, Stable),
                 [CreateLogicalDevice])
    ]

  /** Deleting any ONU. */
  const ChildDeletionEntries: seq<Transition> :=
    [
      Transition(Child, DeviceState(AdminUnknown, ConnUnknown, OperUnknown, AnyTransient),
                 DeviceState(AdminUnknown, ConnUnknown, OperUnknown, ForceDeleting),
                 [DeleteAllDeviceFlows, ChildDeviceLost, DeleteLogicalPorts, RunPostDeviceDelete]),
      Transition(Child, DeviceState(AdminUnknown, ConnUnknown, OperUnknown, AnyTransient),
                 DeviceState(AdminUnknown, ConnUnknown, OperUnknown, DeletingPostAdapterResponse),
                 [DeleteAllDeviceFlows, DeleteLogicalPorts, ChildDeviceLost, RunPostDeviceDelete]),
      Transition(Child, DeviceState(AdminUnknown, ConnUnknown, OperUnknown, AnyTransient),
                 DeviceState(AdminUnknown, ConnUnknown, OperUnknown, DeletingFromAdapter),
                 [])
    ]

  /** Changes that are reported as invalid, and image downloads. */
  const InvalidEntries: seq<Transition> :=
    [
      Transition(AnyType, DeviceState(Enabled, ConnUnknown, Active, Stable),
                 DeviceState(Enabled, ConnUnknown, Activating, Stable),
                 [NotifyInvalidTransition]),
      Transition(AnyType, DeviceState(Enabled, ConnUnknown, Activating, Stable),
                 DeviceState(Enabled, ConnUnknown, OperUnknown, Stable),
                 [NotifyInvalidTransition]),
      Transition(AnyType, DeviceState(Preprovisioned, ConnUnknown, OperUnknown, Stable),
                 DeviceState(AdminUnknown, ConnUnknown, OperUnknown, Stable),
                 [NotifyInvalidTransition]),
      Transition(Child, DeviceState(Enabled, Reachable, OperUnknown, Stable),
                 DeviceState(DownloadingImage, Reachable, OperUnknown, Stable),
                 []),
      Transition(Child, DeviceState(DownloadingImage, Reachable, OperUnknown, Stable),
                 DeviceState(Enabled, Reachable, OperUnknown, Stable),
                 []),
      Transition(AnyType, DeviceState(Enabled, ConnUnknown, OperUnknown, Stable),
                 DeviceState(AdminUnknown, ConnUnknown, OperUnknown, Stable),
                 [NotifyInvalidTransition]),
      Transition(Parent, DeviceState(Enabled, ConnUnknown, Active, Stable),
                 DeviceState(Enabled, ConnUnknown, Activating, Stable),
                 [NotifyInvalidTransition]),
      Transition(AnyType, DeviceState(Enabled, ConnUnknown, Activating, Stable),
                 DeviceState(Enabled, ConnUnknown, OperUnknown, Stable),
                 [NotifyInvalidTransition]),
      Transition(AnyType, DeviceState(Enabled, ConnUnknown, OperUnknown, Stable),
                 DeviceState(Preprovisioned, ConnUnknown, OperUnknown, Stable),
                 [NotifyInvalidTransition]),
      Transition(Child, DeviceState(Disabled, ConnUnknown, OperUnknown, Stable),
                 DeviceState(AdminUnknown, ConnUnknown, OperUnknown, Stable),
                 [NotifyInvalidTransition]),
      Transition(AnyType, DeviceState(Disabled, ConnUnknown, OperUnknown, Stable),
                 DeviceState(Preprovisioned, ConnUnknown, OperUnknown, Stable),
                 [NotifyInvalidTransition])
    ]

  /** Reconciling, for devices of any type. */
  const ReconcilingEntries: seq<Transition> :=
    [
      Transition(AnyType, DeviceState(Enabled, ConnUnknown, OperUnknown, ReconcileInProgress),
                 DeviceState(Enabled, ConnUnknown, Reconciling, ReconcileInProgress),
                 []),
      Transition(AnyType, DeviceState(Disabled, ConnUnknown, OperUnknown, ReconcileInProgress),
                 DeviceState(Disabled, ConnUnknown, Reconciling, ReconcileInProgress),
                 []),
      Transition(AnyType, DeviceState(Preprovisioned, ConnUnknown, OperUnknown, ReconcileInProgress),
                 DeviceState(Preprovisioned, ConnUnknown, Reconciling, ReconcileInProgress),
                 []),
      Transition(AnyType, DeviceState(DownloadingImage, ConnUnknown, OperUnknown, ReconcileInProgress),
                 DeviceState(DownloadingImage, ConnUnknown, Reconciling, ReconcileInProgress),
                 []),
      Transition(AnyType, DeviceState(Enabled, ConnUnknown, Reconciling, ReconcileInProgress),
                 DeviceState(Enabled, Reachable, Active, ReconcileInProgress),
                 [ReconcilingCleanup]),
      Transition(AnyType, DeviceState(Enabled, ConnUnknown, Reconciling, ReconcileInProgress),
                 DeviceState(Enabled, Unreachable, OperUnknown, ReconcileInProgress),
                 [ReconcilingCleanup]),
      Transition(AnyType, DeviceState(Disabled, ConnUnknown, Reconciling, ReconcileInProgress),
                 DeviceState(Disabled, Unreachable, OperUnknown, ReconcileInProgress),
                 [ReconcilingCleanup]),
      Transition(AnyType, DeviceState(DownloadingImage, ConnUnknown, Reconciling, ReconcileInProgress),
                 DeviceState(DownloadingImage, ConnUnknown, OperUnknown, ReconcileInProgress),
                 [ReconcilingCleanup]),
      Transition(AnyType, DeviceState(Enabled, ConnUnknown, Reconciling, ReconcileInProgress),
                 DeviceState(Enabled, ConnUnknown, ReconcilingFailed, ReconcileInProgress),
                 [ReconcilingCleanup]),
      Transition(AnyType, DeviceState(Disabled, ConnUnknown, Reconciling, ReconcileInProgress),
                 DeviceState(Disabled, ConnUnknown, ReconcilingFailed, ReconcileInProgress),
                 [ReconcilingCleanup]),
      Transition(AnyType, DeviceState(DownloadingImage, ConnUnknown, Reconciling, ReconcileInProgress),
                 DeviceState(DownloadingImage, ConnUnknown, ReconcilingFailed, ReconcileInProgress),
                 [ReconcilingCleanup])
    ]

  /** Reconciling an OLT. */
  const ParentReconcilingEntries: seq<Transition> :=
    [
      Transition(Parent, DeviceState(Enabled, Reachable, Reconciling, ReconcileInProgress),
                 DeviceState(Enabled, Reachable, Rebooted, ReconcileInProgress),
                 [ReconcilingCleanup, DeleteAllLogicalPorts, DeleteAllChildDevices, DeleteAllLogicalMeters, DeleteLogicalDevice, DeleteAllDeviceFlows]),
      Transition(Parent, DeviceState(Enabled, Unreachable, Reconciling, ReconcileInProgress),
                 DeviceState(Enabled, Reachable, Rebooted, ReconcileInProgress),
                 [ReconcilingCleanup, DeleteAllLogicalPorts, DeleteAllChildDevices, DeleteAllLogicalMeters, DeleteLogicalDevice, DeleteAllDeviceFlows]),
      Transition(Parent, DeviceState(Enabled, Reachable, Rebooted, ReconcileInProgress),
                 DeviceState(Enabled, Unreachable, Reconciling, ReconcileInProgress),
                 []),
      Transition(Parent, DeviceState(Enabled, Unreachable, Reconciling, ReconcileInProgress),
                 DeviceState(Enabled, Reachable, Reconciling, ReconcileInProgress),
                 [CreateLogicalDevice]),
      Transition(Parent, DeviceState(Enabled, Reachable, Active, ReconcileInProgress),
                 DeviceState(Enabled, Unreachable, OperUnknown, ReconcileInProgress),
                 [])
    ]

  const Table: seq<Transition> :=
    ActivationEntries + ParentDeletionEntries + ParentConnectionEntries + ChildDeletionEntries + InvalidEntries + ReconcilingEntries + ParentReconcilingEntries
}
