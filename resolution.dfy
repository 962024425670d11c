/**
 * The resolution-center models of aiohasupervisor/models/resolution.py.
 * Every enum but `ContextType` is declared incomplete: the service adds new
 * values over time, so response fields typed `Enum | str` keep an unknown
 * wire string as the raw string. `context` has no such fallback.
 */
module Resolution {
  import opened Wrappers
  import opened EnumCodec

  // --- enum tables ---

  /** `SuggestionType`. */
  datatype SuggestionType =
      AdoptDataDisk
    | ClearFullBackup
    | CreateFullBackup
    | ExecuteIntegrity
    | ExecuteReboot
    | ExecuteRebuild
    | ExecuteReload
    | ExecuteRemove
    | ExecuteRepair
    | ExecuteReset
    | ExecuteStop
    | ExecuteUpdate
    | RegistryLogin
    | RenameDataDisk

  function SuggestionTypeValue(e: SuggestionType): string
  {
    match e
    case AdoptDataDisk => "adopt_data_disk"
    case ClearFullBackup => "clear_full_backup"
    case CreateFullBackup => "create_full_backup"
    case ExecuteIntegrity => "execute_integrity"
    case ExecuteReboot => "execute_reboot"
    case ExecuteRebuild => "execute_rebuild"
    case ExecuteReload => "execute_reload"
    case ExecuteRemove => "execute_remove"
    case ExecuteRepair => "execute_repair"
    case ExecuteReset => "execute_reset"
    case ExecuteStop => "execute_stop"
    case ExecuteUpdate => "execute_update"
    case RegistryLogin => "registry_login"
    case RenameDataDisk => "rename_data_disk"
  }

  function ParseSuggestionType(s: string): Option<SuggestionType>
  {
    match s
    case "adopt_data_disk" => Some(SuggestionType.AdoptDataDisk)
    case "clear_full_backup" => Some(SuggestionType.ClearFullBackup)
    case "create_full_backup" => Some(SuggestionType.CreateFullBackup)
    case "execute_integrity" => Some(SuggestionType.ExecuteIntegrity)
    case "execute_reboot" => Some(SuggestionType.ExecuteReboot)
    case "execute_rebuild" => Some(SuggestionType.ExecuteRebuild)
    case "execute_reload" => Some(SuggestionType.ExecuteReload)
    case "execute_remove" => Some(SuggestionType.ExecuteRemove)
    case "execute_repair" => Some(SuggestionType.ExecuteRepair)
    case "execute_reset" => Some(SuggestionType.ExecuteReset)
    case "execute_stop" => Some(SuggestionType.ExecuteStop)
    case "execute_update" => Some(SuggestionType.ExecuteUpdate)
    case "registry_login" => Some(SuggestionType.RegistryLogin)
    case "rename_data_disk" => Some(SuggestionType.RenameDataDisk)
    case _ => None
  }

  /** `IssueType`. */
  datatype IssueType =
      CorruptDocker
    | CorruptRepository
    | CorruptFilesystem
    | DetachedAddonMissing
    | DetachedAddonRemoved
    | DisabledDataDisk
    | DnsLoop
    | DnsServerFailed
    | DnsServerIpv6Error
    | DockerConfig
    | DockerRatelimit
    | FatalError
    | FreeSpace
    | Ipv4ConnectionProblem
    | MissingImage
    | MountFailed
    | MultipleDataDisks
    | NoCurrentBackup
    | Pwned
    | RebootRequired
    | Security
    | Trust
    | UpdateFailed
    | UpdateRollback

  function IssueTypeValue(e: IssueType): string
  {
    match e
    case CorruptDocker => "corrupt_docker"
    case CorruptRepository => "corrupt_repository"
    case CorruptFilesystem => "corrupt_filesystem"
    case DetachedAddonMissing => "detached_addon_missing"
    case DetachedAddonRemoved => "detached_addon_removed"
    case DisabledDataDisk => "disabled_data_disk"
    case DnsLoop => "dns_loop"
    case DnsServerFailed => "dns_server_failed"
    case DnsServerIpv6Error => "dns_server_ipv6_error"
    case DockerConfig => "docker_config"
    case DockerRatelimit => "docker_ratelimit"
    case FatalError => "fatal_error"
    case FreeSpace => "free_space"
    case Ipv4ConnectionProblem => "ipv4_connection_problem"
    case MissingImage => "missing_image"
    case MountFailed => "mount_failed"
    case MultipleDataDisks => "multiple_data_disks"
    case NoCurrentBackup => "no_current_backup"
    case Pwned => "pwned"
    case RebootRequired => "reboot_required"
    case Security => "security"
    case Trust => "trust"
    case UpdateFailed => "update_failed"
    case UpdateRollback => "update_rollback"
  }

  function ParseIssueType(s: string): Option<IssueType>
  {
    match s
    case "corrupt_docker" => Some(IssueType.CorruptDocker)
    case "corrupt_repository" => Some(IssueType.CorruptRepository)
    case "corrupt_filesystem" => Some(IssueType.CorruptFilesystem)
    case "detached_addon_missing" => Some(IssueType.DetachedAddonMissing)
    case "detached_addon_removed" => Some(IssueType.DetachedAddonRemoved)
    case "disabled_data_disk" => Some(IssueType.DisabledDataDisk)
    case "dns_loop" => Some(IssueType.DnsLoop)
    case "dns_server_failed" => Some(IssueType.DnsServerFailed)
    case "dns_server_ipv6_error" => Some(IssueType.DnsServerIpv6Error)
    case "docker_config" => Some(IssueType.DockerConfig)
    case "docker_ratelimit" => Some(IssueType.DockerRatelimit)
    case "fatal_error" => Some(IssueType.FatalError)
    case "free_space" => Some(IssueType.FreeSpace)
    case "ipv4_connection_problem" => Some(IssueType.Ipv4ConnectionProblem)
    case "missing_image" => Some(IssueType.MissingImage)
    case "mount_failed" => Some(IssueType.MountFailed)
    case "multiple_data_disks" => Some(IssueType.MultipleDataDisks)
    case "no_current_backup" => Some(IssueType.NoCurrentBackup)
    case "pwned" => Some(IssueType.Pwned)
    case "reboot_required" => Some(IssueType.RebootRequired)
    case "security" => Some(IssueType.Security)
    case "trust" => Some(IssueType.Trust)
    case "update_failed" => Some(IssueType.UpdateFailed)
    case "update_rollback" => Some(IssueType.UpdateRollback)
    case _ => None
  }

  /** `UnsupportedReason`. */
  datatype UnsupportedReason =
      Apparmor
    | CgroupVersion
    | ConnectivityCheck
    | ContentTrust
    | Dbus
    | DnsServer
    | DockerConfiguration
    | DockerVersion
    | JobConditions
    | Lxc
    | NetworkManager
    | Os
    | OsAgent
    | Privileged
    | RestartPolicy
    | Software
    | SourceMods
    | SupervisorVersion
    | Systemd
    | SystemdJournal
    | SystemdResolved
    | VirtualizationImage

  function UnsupportedReasonValue(e: UnsupportedReason): string
  {
    match e
    case Apparmor => "apparmor"
    case CgroupVersion => "cgroup_version"
    case ConnectivityCheck => "connectivity_check"
    case ContentTrust => "content_trust"
    case Dbus => "dbus"
    case DnsServer => "dns_server"
    case DockerConfiguration => "docker_configuration"
    case DockerVersion => "docker_version"
    case JobConditions => "job_conditions"
    case Lxc => "lxc"
    case NetworkManager => "network_manager"
    case Os => "os"
    case OsAgent => "os_agent"
    case Privileged => "privileged"
    case RestartPolicy => "restart_policy"
    case Software => "software"
    case SourceMods => "source_mods"
    case SupervisorVersion => "supervisor_version"
    case Systemd => "systemd"
    case SystemdJournal => "systemd_journal"
    case SystemdResolved => "systemd_resolved"
    case VirtualizationImage => "virtualization_image"
  }

  function ParseUnsupportedReason(s: string): Option<UnsupportedReason>
  {
    match s
    case "apparmor" => Some(UnsupportedReason.Apparmor)
    case "cgroup_version" => Some(UnsupportedReason.CgroupVersion)
    case "connectivity_check" => Some(UnsupportedReason.ConnectivityCheck)
    case "content_trust" => Some(UnsupportedReason.ContentTrust)
    case "dbus" => Some(UnsupportedReason.Dbus)
    case "dns_server" => Some(UnsupportedReason.DnsServer)
    case "docker_configuration" => Some(UnsupportedReason.DockerConfiguration)
    case "docker_version" => Some(UnsupportedReason.DockerVersion)
    case "job_conditions" => Some(UnsupportedReason.JobConditions)
    case "lxc" => Some(UnsupportedReason.Lxc)
    case "network_manager" => Some(UnsupportedReason.NetworkManager)
    case "os" => Some(UnsupportedReason.Os)
    case "os_agent" => Some(UnsupportedReason.OsAgent)
    case "privileged" => Some(UnsupportedReason.Privileged)
    case "restart_policy" => Some(UnsupportedReason.RestartPolicy)
    case "software" => Some(UnsupportedReason.Software)
    case "source_mods" => Some(UnsupportedReason.SourceMods)
    case "supervisor_version" => Some(UnsupportedReason.SupervisorVersion)
    case "systemd" => Some(UnsupportedReason.Systemd)
    case "systemd_journal" => Some(UnsupportedReason.SystemdJournal)
    case "systemd_resolved" => Some(UnsupportedReason.SystemdResolved)
    case "virtualization_image" => Some(UnsupportedReason.VirtualizationImage)
    case _ => None
  }

  /** `UnhealthyReason`. */
  datatype UnhealthyReason =
      Docker
    | OserrorBadMessage
    | Privileged
    | Supervisor
    | Setup
    | Untrusted

  function UnhealthyReasonValue(e: UnhealthyReason): string
  {
    match e
    case Docker => "docker"
    case OserrorBadMessage => "oserror_bad_message"
    case Privileged => "privileged"
    case Supervisor => "supervisor"
    case Setup => "setup"
    case Untrusted => "untrusted"
  }

  function ParseUnhealthyReason(s: string): Option<UnhealthyReason>
  {
    match s
    case "docker" => Some(UnhealthyReason.Docker)
    case "oserror_bad_message" => Some(UnhealthyReason.OserrorBadMessage)
    case "privileged" => Some(UnhealthyReason.Privileged)
    case "supervisor" => Some(UnhealthyReason.Supervisor)
    case "setup" => Some(UnhealthyReason.Setup)
    case "untrusted" => Some(UnhealthyReason.Untrusted)
    case _ => None
  }

  /** `ContextType`. */
  datatype ContextType =
      Addon
    | Core
    | DnsServer
    | Mount
    | Os
    | Plugin
    | Supervisor
    | Store
    | System

  function ContextTypeValue(e: ContextType): string
  {
    match e
    case Addon => "addon"
    case Core => "core"
    case DnsServer => "dns_server"
    case Mount => "mount"
    case Os => "os"
    case Plugin => "plugin"
    case Supervisor => "supervisor"
    case Store => "store"
    case System => "system"
  }

  function ParseContextType(s: string): Option<ContextType>
  {
    match s
    case "addon" => Some(ContextType.Addon)
    case "core" => Some(ContextType.Core)
    case "dns_server" => Some(ContextType.DnsServer)
    case "mount" => Some(ContextType.Mount)
    case "os" => Some(ContextType.Os)
    case "plugin" => Some(ContextType.Plugin)
    case "supervisor" => Some(ContextType.Supervisor)
    case "store" => Some(ContextType.Store)
    case "system" => Some(ContextType.System)
    case _ => None
  }

  /** `CheckType`. */
  datatype CheckType =
      AddonPwned
    | Backups
    | CoreSecurity
    | DetachedAddonMissing
    | DetachedAddonRemoved
    | DisabledDataDisk
    | DnsServerIpv6
    | DnsServer
    | DockerConfig
    | FreeSpace
    | MultipleDataDisks
    | NetworkInterfaceIpv4
    | SupervisorTrust

  function CheckTypeValue(e: CheckType): string
  {
    match e
    case AddonPwned => "addon_pwned"
    case Backups => "backups"
    case CoreSecurity => "core_security"
    case DetachedAddonMissing => "detached_addon_missing"
    case DetachedAddonRemoved => "detached_addon_removed"
    case DisabledDataDisk => "disabled_data_disk"
    case DnsServerIpv6 => "dns_server_ipv6"
    case DnsServer => "dns_server"
    case DockerConfig => "docker_config"
    case FreeSpace => "free_space"
    case MultipleDataDisks => "multiple_data_disks"
    case NetworkInterfaceIpv4 => "network_interface_ipv4"
    case SupervisorTrust => "supervisor_trust"
  }

  function ParseCheckType(s: string): Option<CheckType>
  {
    match s
    case "addon_pwned" => Some(CheckType.AddonPwned)
    case "backups" => Some(CheckType.Backups)
    case "core_security" => Some(CheckType.CoreSecurity)
    case "detached_addon_missing" => Some(CheckType.DetachedAddonMissing)
    case "detached_addon_removed" => Some(CheckType.DetachedAddonRemoved)
    case "disabled_data_disk" => Some(CheckType.DisabledDataDisk)
    case "dns_server_ipv6" => Some(CheckType.DnsServerIpv6)
    case "dns_server" => Some(CheckType.DnsServer)
    case "docker_config" => Some(CheckType.DockerConfig)
    case "free_space" => Some(CheckType.FreeSpace)
    case "multiple_data_disks" => Some(CheckType.MultipleDataDisks)
    case "network_interface_ipv4" => Some(CheckType.NetworkInterfaceIpv4)
    case "supervisor_trust" => Some(CheckType.SupervisorTrust)
    case _ => None
  }
  /**
   * Within each enum the wire strings are pairwise distinct and each parses
   * back to its member. Each is split in its two directions, which keeps the
   * solver's work per lemma small.
   */
  lemma SuggestionTypeCodec()
    ensures IsCodec(SuggestionTypeValue, ParseSuggestionType)
  {
    SuggestionTypeParsesBack();
    SuggestionTypeValuesRecovered();
  }

  /** The `SuggestionType` table, read from the wire side: each wire string and the member it denotes. */
  lemma SuggestionTypeTable1()
    ensures ParseSuggestionType("adopt_data_disk") == Some(SuggestionType.AdoptDataDisk)
    ensures ParseSuggestionType("clear_full_backup") == Some(SuggestionType.ClearFullBackup)
    ensures ParseSuggestionType("create_full_backup") == Some(SuggestionType.CreateFullBackup)
    ensures ParseSuggestionType("execute_integrity") == Some(SuggestionType.ExecuteIntegrity)
    ensures ParseSuggestionType("execute_reboot") == Some(SuggestionType.ExecuteReboot)
    ensures ParseSuggestionType("execute_rebuild") == Some(SuggestionType.ExecuteRebuild)
  {
  }

  lemma SuggestionTypeTable2()
    ensures ParseSuggestionType("execute_reload") == Some(SuggestionType.ExecuteReload)
    ensures ParseSuggestionType("execute_remove") == Some(SuggestionType.ExecuteRemove)
    ensures ParseSuggestionType("execute_repair") == Some(SuggestionType.ExecuteRepair)
    ensures ParseSuggestionType("execute_reset") == Some(SuggestionType.ExecuteReset)
    ensures ParseSuggestionType("execute_stop") == Some(SuggestionType.ExecuteStop)
    ensures ParseSuggestionType("execute_update") == Some(SuggestionType.ExecuteUpdate)
  {
  }

  lemma SuggestionTypeTable3()
    ensures ParseSuggestionType("registry_login") == Some(SuggestionType.RegistryLogin)
    ensures ParseSuggestionType("rename_data_disk") == Some(SuggestionType.RenameDataDisk)
  {
  }

  /** The `SuggestionType` table, read from the member side: each member and its wire string. */
  lemma SuggestionTypeValues1()
    ensures SuggestionTypeValue(SuggestionType.AdoptDataDisk) == "adopt_data_disk"
    ensures SuggestionTypeValue(SuggestionType.ClearFullBackup) == "clear_full_backup"
    ensures SuggestionTypeValue(SuggestionType.CreateFullBackup) == "create_full_backup"
    ensures SuggestionTypeValue(SuggestionType.ExecuteIntegrity) == "execute_integrity"
    ensures SuggestionTypeValue(SuggestionType.ExecuteReboot) == "execute_reboot"
    ensures SuggestionTypeValue(SuggestionType.ExecuteRebuild) == "execute_rebuild"
    ensures SuggestionTypeValue(SuggestionType.ExecuteReload) == "execute_reload"
    ensures SuggestionTypeValue(SuggestionType.ExecuteRemove) == "execute_remove"
  {
  }

  lemma SuggestionTypeValues2()
    ensures SuggestionTypeValue(SuggestionType.ExecuteRepair) == "execute_repair"
    ensures SuggestionTypeValue(SuggestionType.ExecuteReset) == "execute_reset"
    ensures SuggestionTypeValue(SuggestionType.ExecuteStop) == "execute_stop"
    ensures SuggestionTypeValue(SuggestionType.ExecuteUpdate) == "execute_update"
    ensures SuggestionTypeValue(SuggestionType.RegistryLogin) == "registry_login"
    ensures SuggestionTypeValue(SuggestionType.RenameDataDisk) == "rename_data_disk"
  {
  }

  lemma SuggestionTypeParsesBack()
    ensures forall e :: ParseSuggestionType(SuggestionTypeValue(e)) == Some(e)
  {
    SuggestionTypeTable1();
    SuggestionTypeTable2();
    SuggestionTypeTable3();
    forall e: SuggestionType
      ensures ParseSuggestionType(SuggestionTypeValue(e)) == Some(e)
    {
      match e
      case AdoptDataDisk => assert SuggestionTypeValue(e) == "adopt_data_disk";
      case ClearFullBackup => assert SuggestionTypeValue(e) == "clear_full_backup";
      case CreateFullBackup => assert SuggestionTypeValue(e) == "create_full_backup";
      case ExecuteIntegrity => assert SuggestionTypeValue(e) == "execute_integrity";
      case ExecuteReboot => assert SuggestionTypeValue(e) == "execute_reboot";
      case ExecuteRebuild => assert SuggestionTypeValue(e) == "execute_rebuild";
      case ExecuteReload => assert SuggestionTypeValue(e) == "execute_reload";
      case ExecuteRemove => assert SuggestionTypeValue(e) == "execute_remove";
      case ExecuteRepair => assert SuggestionTypeValue(e) == "execute_repair";
      case ExecuteReset => assert SuggestionTypeValue(e) == "execute_reset";
      case ExecuteStop => assert SuggestionTypeValue(e) == "execute_stop";
      case ExecuteUpdate => assert SuggestionTypeValue(e) == "execute_update";
      case RegistryLogin => assert SuggestionTypeValue(e) == "registry_login";
      case RenameDataDisk => assert SuggestionTypeValue(e) == "rename_data_disk";
    }
  }

  lemma SuggestionTypeValuesRecovered()
    ensures forall s :: ParseSuggestionType(s).Some? ==> SuggestionTypeValue(ParseSuggestionType(s).value) == s
  {
    SuggestionTypeValues1();
    SuggestionTypeValues2();
  }

  lemma IssueTypeCodec()
    ensures IsCodec(IssueTypeValue, ParseIssueType)
  {
    IssueTypeParsesBack();
    IssueTypeValuesRecovered();
  }

  /** The `IssueType` table, read from the wire side: each wire string and the member it denotes. */
  lemma IssueTypeTable1()
    ensures ParseIssueType("corrupt_docker") == Some(IssueType.CorruptDocker)
    ensures ParseIssueType("corrupt_repository") == Some(IssueType.CorruptRepository)
    ensures ParseIssueType("corrupt_filesystem") == Some(IssueType.CorruptFilesystem)
    ensures ParseIssueType("detached_addon_missing") == Some(IssueType.DetachedAddonMissing)
    ensures ParseIssueType("detached_addon_removed") == Some(IssueType.DetachedAddonRemoved)
    ensures ParseIssueType("disabled_data_disk") == Some(IssueType.DisabledDataDisk)
  {
  }

  lemma IssueTypeTable2()
    ensures ParseIssueType("dns_loop") == Some(IssueType.DnsLoop)
    ensures ParseIssueType("dns_server_failed") == Some(IssueType.DnsServerFailed)
    ensures ParseIssueType("dns_server_ipv6_error") == Some(IssueType.DnsServerIpv6Error)
    ensures ParseIssueType("docker_config") == Some(IssueType.DockerConfig)
    ensures ParseIssueType("docker_ratelimit") == Some(IssueType.DockerRatelimit)
    ensures ParseIssueType("fatal_error") == Some(IssueType.FatalError)
  {
  }

  lemma IssueTypeTable3()
    ensures ParseIssueType("free_space") == Some(IssueType.FreeSpace)
    ensures ParseIssueType("ipv4_connection_problem") == Some(IssueType.Ipv4ConnectionProblem)
    ensures ParseIssueType("missing_image") == Some(IssueType.MissingImage)
    ensures ParseIssueType("mount_failed") == Some(IssueType.MountFailed)
    ensures ParseIssueType("multiple_data_disks") == Some(IssueType.MultipleDataDisks)
    ensures ParseIssueType("no_current_backup") == Some(IssueType.NoCurrentBackup)
  {
  }

  lemma IssueTypeTable4()
    ensures ParseIssueType("pwned") == Some(IssueType.Pwned)
    ensures ParseIssueType("reboot_required") == Some(IssueType.RebootRequired)
    ensures ParseIssueType("security") == Some(IssueType.Security)
    ensures ParseIssueType("trust") == Some(IssueType.Trust)
    ensures ParseIssueType("update_failed") == Some(IssueType.UpdateFailed)
    ensures ParseIssueType("update_rollback") == Some(IssueType.UpdateRollback)
  {
  }

  /** The `IssueType` table, read from the member side: each member and its wire string. */
  lemma IssueTypeValues1()
    ensures IssueTypeValue(IssueType.CorruptDocker) == "corrupt_docker"
    ensures IssueTypeValue(IssueType.CorruptRepository) == "corrupt_repository"
    ensures IssueTypeValue(IssueType.CorruptFilesystem) == "corrupt_filesystem"
    ensures IssueTypeValue(IssueType.DetachedAddonMissing) == "detached_addon_missing"
    ensures IssueTypeValue(IssueType.DetachedAddonRemoved) == "detached_addon_removed"
    ensures IssueTypeValue(IssueType.DisabledDataDisk) == "disabled_data_disk"
    ensures IssueTypeValue(IssueType.DnsLoop) == "dns_loop"
    ensures IssueTypeValue(IssueType.DnsServerFailed) == "dns_server_failed"
  {
  }

  lemma IssueTypeValues2()
    ensures IssueTypeValue(IssueType.DnsServerIpv6Error) == "dns_server_ipv6_error"
    ensures IssueTypeValue(IssueType.DockerConfig) == "docker_config"
    ensures IssueTypeValue(IssueType.DockerRatelimit) == "docker_ratelimit"
    ensures IssueTypeValue(IssueType.FatalError) == "fatal_error"
    ensures IssueTypeValue(IssueType.FreeSpace) == "free_space"
    ensures IssueTypeValue(IssueType.Ipv4ConnectionProblem) == "ipv4_connection_problem"
    ensures IssueTypeValue(IssueType.MissingImage) == "missing_image"
    ensures IssueTypeValue(IssueType.MountFailed) == "mount_failed"
  {
  }

  lemma IssueTypeValues3()
    ensures IssueTypeValue(IssueType.MultipleDataDisks) == "multiple_data_disks"
    ensures IssueTypeValue(IssueType.NoCurrentBackup) == "no_current_backup"
    ensures IssueTypeValue(IssueType.Pwned) == "pwned"
    ensures IssueTypeValue(IssueType.RebootRequired) == "reboot_required"
    ensures IssueTypeValue(IssueType.Security) == "security"
    ensures IssueTypeValue(IssueType.Trust) == "trust"
    ensures IssueTypeValue(IssueType.UpdateFailed) == "update_failed"
    ensures IssueTypeValue(IssueType.UpdateRollback) == "update_rollback"
  {
  }

  lemma IssueTypeParsesBack()
    ensures forall e :: ParseIssueType(IssueTypeValue(e)) == Some(e)
  {
    IssueTypeTable1();
    IssueTypeTable2();
    IssueTypeTable3();
    IssueTypeTable4();
    forall e: IssueType
      ensures ParseIssueType(IssueTypeValue(e)) == Some(e)
    {
      match e
      case CorruptDocker => assert IssueTypeValue(e) == "corrupt_docker";
      case CorruptRepository => assert IssueTypeValue(e) == "corrupt_repository";
      case CorruptFilesystem => assert IssueTypeValue(e) == "corrupt_filesystem";
      case DetachedAddonMissing => assert IssueTypeValue(e) == "detached_addon_missing";
      case DetachedAddonRemoved => assert IssueTypeValue(e) == "detached_addon_removed";
      case DisabledDataDisk => assert IssueTypeValue(e) == "disabled_data_disk";
      case DnsLoop => assert IssueTypeValue(e) == "dns_loop";
      case DnsServerFailed => assert IssueTypeValue(e) == "dns_server_failed";
      case DnsServerIpv6Error => assert IssueTypeValue(e) == "dns_server_ipv6_error";
      case DockerConfig => assert IssueTypeValue(e) == "docker_config";
      case DockerRatelimit => assert IssueTypeValue(e) == "docker_ratelimit";
      case FatalError => assert IssueTypeValue(e) == "fatal_error";
      case FreeSpace => assert IssueTypeValue(e) == "free_space";
      case Ipv4ConnectionProblem => assert IssueTypeValue(e) == "ipv4_connection_problem";
      case MissingImage => assert IssueTypeValue(e) == "missing_image";
      case MountFailed => assert IssueTypeValue(e) == "mount_failed";
      case MultipleDataDisks => assert IssueTypeValue(e) == "multiple_data_disks";
      case NoCurrentBackup => assert IssueTypeValue(e) == "no_current_backup";
      case Pwned => assert IssueTypeValue(e) == "pwned";
      case RebootRequired => assert IssueTypeValue(e) == "reboot_required";
      case Security => assert IssueTypeValue(e) == "security";
      case Trust => assert IssueTypeValue(e) == "trust";
      case UpdateFailed => assert IssueTypeValue(e) == "update_failed";
      case UpdateRollback => assert IssueTypeValue(e) == "update_rollback";
    }
  }

  lemma IssueTypeValuesRecovered()
    ensures forall s :: ParseIssueType(s).Some? ==> IssueTypeValue(ParseIssueType(s).value) == s
  {
    IssueTypeValues1();
    IssueTypeValues2();
    IssueTypeValues3();
  }

  lemma UnsupportedReasonCodec()
    ensures IsCodec(UnsupportedReasonValue, ParseUnsupportedReason)
  {
    UnsupportedReasonParsesBack();
    UnsupportedReasonValuesRecovered();
  }

  /** The `UnsupportedReason` table, read from the wire side: each wire string and the member it denotes. */
  lemma UnsupportedReasonTable1()
    ensures ParseUnsupportedReason("apparmor") == Some(UnsupportedReason.Apparmor)
    ensures ParseUnsupportedReason("cgroup_version") == Some(UnsupportedReason.CgroupVersion)
    ensures ParseUnsupportedReason("connectivity_check") == Some(UnsupportedReason.ConnectivityCheck)
    ensures ParseUnsupportedReason("content_trust") == Some(UnsupportedReason.ContentTrust)
    ensures ParseUnsupportedReason("dbus") == Some(UnsupportedReason.Dbus)
    ensures ParseUnsupportedReason("dns_server") == Some(UnsupportedReason.DnsServer)
  {
  }

  lemma UnsupportedReasonTable2()
    ensures ParseUnsupportedReason("docker_configuration") == Some(UnsupportedReason.DockerConfiguration)
    ensures ParseUnsupportedReason("docker_version") == Some(UnsupportedReason.DockerVersion)
    ensures ParseUnsupportedReason("job_conditions") == Some(UnsupportedReason.JobConditions)
    ensures ParseUnsupportedReason("lxc") == Some(UnsupportedReason.Lxc)
    ensures ParseUnsupportedReason("network_manager") == Some(UnsupportedReason.NetworkManager)
    ensures ParseUnsupportedReason("os") == Some(UnsupportedReason.Os)
  {
  }

  lemma UnsupportedReasonTable3()
    ensures ParseUnsupportedReason("os_agent") == Some(UnsupportedReason.OsAgent)
    ensures ParseUnsupportedReason("privileged") == Some(UnsupportedReason.Privileged)
    ensures ParseUnsupportedReason("restart_policy") == Some(UnsupportedReason.RestartPolicy)
    ensures ParseUnsupportedReason("software") == Some(UnsupportedReason.Software)
    ensures ParseUnsupportedReason("source_mods") == Some(UnsupportedReason.SourceMods)
    ensures ParseUnsupportedReason("supervisor_version") == Some(UnsupportedReason.SupervisorVersion)
  {
  }

  lemma UnsupportedReasonTable4()
    ensures ParseUnsupportedReason("systemd") == Some(UnsupportedReason.Systemd)
    ensures ParseUnsupportedReason("systemd_journal") == Some(UnsupportedReason.SystemdJournal)
    ensures ParseUnsupportedReason("systemd_resolved") == Some(UnsupportedReason.SystemdResolved)
    ensures ParseUnsupportedReason("virtualization_image") == Some(UnsupportedReason.VirtualizationImage)
  {
  }

  /** The `UnsupportedReason` table, read from the member side: each member and its wire string. */
  lemma UnsupportedReasonValues1()
    ensures UnsupportedReasonValue(UnsupportedReason.Apparmor) == "apparmor"
    ensures UnsupportedReasonValue(UnsupportedReason.CgroupVersion) == "cgroup_version"
    ensures UnsupportedReasonValue(UnsupportedReason.ConnectivityCheck) == "connectivity_check"
    ensures UnsupportedReasonValue(UnsupportedReason.ContentTrust) == "content_trust"
    ensures UnsupportedReasonValue(UnsupportedReason.Dbus) == "dbus"
    ensures UnsupportedReasonValue(UnsupportedReason.DnsServer) == "dns_server"
    ensures UnsupportedReasonValue(UnsupportedReason.DockerConfiguration) == "docker_configuration"
    ensures UnsupportedReasonValue(UnsupportedReason.DockerVersion) == "docker_version"
  {
  }

  lemma UnsupportedReasonValues2()
    ensures UnsupportedReasonValue(UnsupportedReason.JobConditions) == "job_conditions"
    ensures UnsupportedReasonValue(UnsupportedReason.Lxc) == "lxc"
    ensures UnsupportedReasonValue(UnsupportedReason.NetworkManager) == "network_manager"
    ensures UnsupportedReasonValue(UnsupportedReason.Os) == "os"
    ensures UnsupportedReasonValue(UnsupportedReason.OsAgent) == "os_agent"
    ensures UnsupportedReasonValue(UnsupportedReason.Privileged) == "privileged"
    ensures UnsupportedReasonValue(UnsupportedReason.RestartPolicy) == "restart_policy"
    ensures UnsupportedReasonValue(UnsupportedReason.Software) == "software"
  {
  }

  lemma UnsupportedReasonValues3()
    ensures UnsupportedReasonValue(UnsupportedReason.SourceMods) == "source_mods"
    ensures UnsupportedReasonValue(UnsupportedReason.SupervisorVersion) == "supervisor_version"
    ensures UnsupportedReasonValue(UnsupportedReason.Systemd) == "systemd"
    ensures UnsupportedReasonValue(UnsupportedReason.SystemdJournal) == "systemd_journal"
    ensures UnsupportedReasonValue(UnsupportedReason.SystemdResolved) == "systemd_resolved"
    ensures UnsupportedReasonValue(UnsupportedReason.VirtualizationImage) == "virtualization_image"
  {
  }

  lemma UnsupportedReasonParsesBack()
    ensures forall e :: ParseUnsupportedReason(UnsupportedReasonValue(e)) == Some(e)
  {
    UnsupportedReasonTable1();
    UnsupportedReasonTable2();
    UnsupportedReasonTable3();
    UnsupportedReasonTable4();
    forall e: UnsupportedReason
      ensures ParseUnsupportedReason(UnsupportedReasonValue(e)) == Some(e)
    {
      match e
      case Apparmor => assert UnsupportedReasonValue(e) == "apparmor";
      case CgroupVersion => assert UnsupportedReasonValue(e) == "cgroup_version";
      case ConnectivityCheck => assert UnsupportedReasonValue(e) == "connectivity_check";
      case ContentTrust => assert UnsupportedReasonValue(e) == "content_trust";
      case Dbus => assert UnsupportedReasonValue(e) == "dbus";
      case DnsServer => assert UnsupportedReasonValue(e) == "dns_server";
      case DockerConfiguration => assert UnsupportedReasonValue(e) == "docker_configuration";
      case DockerVersion => assert UnsupportedReasonValue(e) == "docker_version";
      case JobConditions => assert UnsupportedReasonValue(e) == "job_conditions";
      case Lxc => assert UnsupportedReasonValue(e) == "lxc";
      case NetworkManager => assert UnsupportedReasonValue(e) == "network_manager";
      case Os => assert UnsupportedReasonValue(e) == "os";
      case OsAgent => assert UnsupportedReasonValue(e) == "os_agent";
      case Privileged => assert UnsupportedReasonValue(e) == "privileged";
      case RestartPolicy => assert UnsupportedReasonValue(e) == "restart_policy";
      case Software => assert UnsupportedReasonValue(e) == "software";
      case SourceMods => assert UnsupportedReasonValue(e) == "source_mods";
      case SupervisorVersion => assert UnsupportedReasonValue(e) == "supervisor_version";
      case Systemd => assert UnsupportedReasonValue(e) == "systemd";
      case SystemdJournal => assert UnsupportedReasonValue(e) == "systemd_journal";
      case SystemdResolved => assert UnsupportedReasonValue(e) == "systemd_resolved";
      case VirtualizationImage => assert UnsupportedReasonValue(e) == "virtualization_image";
    }
  }

  lemma UnsupportedReasonValuesRecovered()
    ensures forall s :: ParseUnsupportedReason(s).Some? ==> UnsupportedReasonValue(ParseUnsupportedReason(s).value) == s
  {
    UnsupportedReasonValues1();
    UnsupportedReasonValues2();
    UnsupportedReasonValues3();
  }

  lemma UnhealthyReasonCodec()
    ensures IsCodec(UnhealthyReasonValue, ParseUnhealthyReason)
  {
    UnhealthyReasonParsesBack();
    UnhealthyReasonValuesRecovered();
  }

  /** The `UnhealthyReason` table, read from the wire side: each wire string and the member it denotes. */
  lemma UnhealthyReasonTable()
    ensures ParseUnhealthyReason("docker") == Some(UnhealthyReason.Docker)
    ensures ParseUnhealthyReason("oserror_bad_message") == Some(UnhealthyReason.OserrorBadMessage)
    ensures ParseUnhealthyReason("privileged") == Some(UnhealthyReason.Privileged)
    ensures ParseUnhealthyReason("supervisor") == Some(UnhealthyReason.Supervisor)
    ensures ParseUnhealthyReason("setup") == Some(UnhealthyReason.Setup)
    ensures ParseUnhealthyReason("untrusted") == Some(UnhealthyReason.Untrusted)
  {
  }

  /** The `UnhealthyReason` table, read from the member side: each member and its wire string. */
  lemma UnhealthyReasonValues()
    ensures UnhealthyReasonValue(UnhealthyReason.Docker) == "docker"
    ensures UnhealthyReasonValue(UnhealthyReason.OserrorBadMessage) == "oserror_bad_message"
    ensures UnhealthyReasonValue(UnhealthyReason.Privileged) == "privileged"
    ensures UnhealthyReasonValue(UnhealthyReason.Supervisor) == "supervisor"
    ensures UnhealthyReasonValue(UnhealthyReason.Setup) == "setup"
    ensures UnhealthyReasonValue(UnhealthyReason.Untrusted) == "untrusted"
  {
  }

  lemma UnhealthyReasonParsesBack()
    ensures forall e :: ParseUnhealthyReason(UnhealthyReasonValue(e)) == Some(e)
  {
    UnhealthyReasonTable();
    forall e: UnhealthyReason
      ensures ParseUnhealthyReason(UnhealthyReasonValue(e)) == Some(e)
    {
      match e
      case Docker => assert UnhealthyReasonValue(e) == "docker";
      case OserrorBadMessage => assert UnhealthyReasonValue(e) == "oserror_bad_message";
      case Privileged => assert UnhealthyReasonValue(e) == "privileged";
      case Supervisor => assert UnhealthyReasonValue(e) == "supervisor";
      case Setup => assert UnhealthyReasonValue(e) == "setup";
      case Untrusted => assert UnhealthyReasonValue(e) == "untrusted";
    }
  }

  lemma UnhealthyReasonValuesRecovered()
    ensures forall s :: ParseUnhealthyReason(s).Some? ==> UnhealthyReasonValue(ParseUnhealthyReason(s).value) == s
  {
    UnhealthyReasonValues();
  }

  lemma ContextTypeCodec()
    ensures IsCodec(ContextTypeValue, ParseContextType)
  {
    ContextTypeParsesBack();
    ContextTypeValuesRecovered();
  }

  /** The `ContextType` table, read from the wire side: each wire string and the member it denotes. */
  lemma ContextTypeTable1()
    ensures ParseContextType("addon") == Some(ContextType.Addon)
    ensures ParseContextType("core") == Some(ContextType.Core)
    ensures ParseContextType("dns_server") == Some(ContextType.DnsServer)
    ensures ParseContextType("mount") == Some(ContextType.Mount)
    ensures ParseContextType("os") == Some(ContextType.Os)
    ensures ParseContextType("plugin") == Some(ContextType.Plugin)
  {
  }

  lemma ContextTypeTable2()
    ensures ParseContextType("supervisor") == Some(ContextType.Supervisor)
    ensures ParseContextType("store") == Some(ContextType.Store)
    ensures ParseContextType("system") == Some(ContextType.System)
  {
  }

  /** The `ContextType` table, read from the member side: each member and its wire string. */
  lemma ContextTypeValues1()
    ensures ContextTypeValue(ContextType.Addon) == "addon"
    ensures ContextTypeValue(ContextType.Core) == "core"
    ensures ContextTypeValue(ContextType.DnsServer) == "dns_server"
    ensures ContextTypeValue(ContextType.Mount) == "mount"
    ensures ContextTypeValue(ContextType.Os) == "os"
    ensures ContextTypeValue(ContextType.Plugin) == "plugin"
    ensures ContextTypeValue(ContextType.Supervisor) == "supervisor"
    ensures ContextTypeValue(ContextType.Store) == "store"
  {
  }

  lemma ContextTypeValues2()
    ensures ContextTypeValue(ContextType.System) == "system"
  {
  }

  lemma ContextTypeParsesBack()
    ensures forall e :: ParseContextType(ContextTypeValue(e)) == Some(e)
  {
    ContextTypeTable1();
    ContextTypeTable2();
    forall e: ContextType
      ensures ParseContextType(ContextTypeValue(e)) == Some(e)
    {
      match e
      case Addon => assert ContextTypeValue(e) == "addon";
      case Core => assert ContextTypeValue(e) == "core";
      case DnsServer => assert ContextTypeValue(e) == "dns_server";
      case Mount => assert ContextTypeValue(e) == "mount";
      case Os => assert ContextTypeValue(e) == "os";
      case Plugin => assert ContextTypeValue(e) == "plugin";
      case Supervisor => assert ContextTypeValue(e) == "supervisor";
      case Store => assert ContextTypeValue(e) == "store";
      case System => assert ContextTypeValue(e) == "system";
    }
  }

  lemma ContextTypeValuesRecovered()
    ensures forall s :: ParseContextType(s).Some? ==> ContextTypeValue(ParseContextType(s).value) == s
  {
    ContextTypeValues1();
    ContextTypeValues2();
  }

  lemma CheckTypeCodec()
    ensures IsCodec(CheckTypeValue, ParseCheckType)
  {
    CheckTypeParsesBack();
    CheckTypeValuesRecovered();
  }

  /** The `CheckType` table, read from the wire side: each wire string and the member it denotes. */
  lemma CheckTypeTable1()
    ensures ParseCheckType("addon_pwned") == Some(CheckType.AddonPwned)
    ensures ParseCheckType("backups") == Some(CheckType.Backups)
    ensures ParseCheckType("core_security") == Some(CheckType.CoreSecurity)
    ensures ParseCheckType("detached_addon_missing") == Some(CheckType.DetachedAddonMissing)
    ensures ParseCheckType("detached_addon_removed") == Some(CheckType.DetachedAddonRemoved)
    ensures ParseCheckType("disabled_data_disk") == Some(CheckType.DisabledDataDisk)
  {
  }

  lemma CheckTypeTable2()
    ensures ParseCheckType("dns_server_ipv6") == Some(CheckType.DnsServerIpv6)
    ensures ParseCheckType("dns_server") == Some(CheckType.DnsServer)
    ensures ParseCheckType("docker_config") == Some(CheckType.DockerConfig)
    ensures ParseCheckType("free_space") == Some(CheckType.FreeSpace)
    ensures ParseCheckType("multiple_data_disks") == Some(CheckType.MultipleDataDisks)
    ensures ParseCheckType("network_interface_ipv4") == Some(CheckType.NetworkInterfaceIpv4)
  {
  }

  lemma CheckTypeTable3()
    ensures ParseCheckType("supervisor_trust") == Some(CheckType.SupervisorTrust)
  {
  }

  /** The `CheckType` table, read from the member side: each member and its wire string. */
  lemma CheckTypeValues1()
    ensures CheckTypeValue(CheckType.AddonPwned) == "addon_pwned"
    ensures CheckTypeValue(CheckType.Backups) == "backups"
    ensures CheckTypeValue(CheckType.CoreSecurity) == "core_security"
    ensures CheckTypeValue(CheckType.DetachedAddonMissing) == "detached_addon_missing"
    ensures CheckTypeValue(CheckType.DetachedAddonRemoved) == "detached_addon_removed"
    ensures CheckTypeValue(CheckType.DisabledDataDisk) == "disabled_data_disk"
    ensures CheckTypeValue(CheckType.DnsServerIpv6) == "dns_server_ipv6"
    ensures CheckTypeValue(CheckType.DnsServer) == "dns_server"
  {
  }

  lemma CheckTypeValues2()
    ensures CheckTypeValue(CheckType.DockerConfig) == "docker_config"
    ensures CheckTypeValue(CheckType.FreeSpace) == "free_space"
    ensures CheckTypeValue(CheckType.MultipleDataDisks) == "multiple_data_disks"
    ensures CheckTypeValue(CheckType.NetworkInterfaceIpv4) == "network_interface_ipv4"
    ensures CheckTypeValue(CheckType.SupervisorTrust) == "supervisor_trust"
  {
  }

  lemma CheckTypeParsesBack()
    ensures forall e :: ParseCheckType(CheckTypeValue(e)) == Some(e)
  {
    CheckTypeTable1();
    CheckTypeTable2();
    CheckTypeTable3();
    forall e: CheckType
      ensures ParseCheckType(CheckTypeValue(e)) == Some(e)
    {
      match e
      case AddonPwned => assert CheckTypeValue(e) == "addon_pwned";
      case Backups => assert CheckTypeValue(e) == "backups";
      case CoreSecurity => assert CheckTypeValue(e) == "core_security";
      case DetachedAddonMissing => assert CheckTypeValue(e) == "detached_addon_missing";
      case DetachedAddonRemoved => assert CheckTypeValue(e) == "detached_addon_removed";
      case DisabledDataDisk => assert CheckTypeValue(e) == "disabled_data_disk";
      case DnsServerIpv6 => assert CheckTypeValue(e) == "dns_server_ipv6";
      case DnsServer => assert CheckTypeValue(e) == "dns_server";
      case DockerConfig => assert CheckTypeValue(e) == "docker_config";
      case FreeSpace => assert CheckTypeValue(e) == "free_space";
      case MultipleDataDisks => assert CheckTypeValue(e) == "multiple_data_disks";
      case NetworkInterfaceIpv4 => assert CheckTypeValue(e) == "network_interface_ipv4";
      case SupervisorTrust => assert CheckTypeValue(e) == "supervisor_trust";
    }
  }

  lemma CheckTypeValuesRecovered()
    ensures forall s :: ParseCheckType(s).Some? ==> CheckTypeValue(ParseCheckType(s).value) == s
  {
    CheckTypeValues1();
    CheckTypeValues2();
  }

  // --- records ---

  /** `Suggestion`; the UUID is kept as its text. */
  datatype Suggestion = Suggestion(
    suggestionType: Decoded<SuggestionType>, context: ContextType, reference: Option<string>, uuid: string, auto: bool)

  /** `Issue`. */
  datatype Issue = Issue(issueType: Decoded<IssueType>, context: ContextType, reference: Option<string>, uuid: string)

  /** `Check`. */
  datatype Check = Check(enabled: bool, slug: Decoded<CheckType>)

  /** `SuggestionsList`. */
  datatype SuggestionsList = SuggestionsList(suggestions: seq<Suggestion>)

  /** `ResolutionInfo`: the `SuggestionsList` field first, then its own four. */
  datatype ResolutionInfo = ResolutionInfo(
    suggestions: seq<Suggestion>, unsupported: seq<Decoded<UnsupportedReason>>,
    unhealthy: seq<Decoded<UnhealthyReason>>, issues: seq<Issue>, checks: seq<Check>)

  /** `CheckOptions`; `enabled` defaults to None. */
  datatype CheckOptions = CheckOptions(enabled: Option<bool> := None)

  // --- the same records as received, every enum field still a string ---

  datatype SuggestionWire = SuggestionWire(
    suggestionType: string, context: string, reference: Option<string>, uuid: string, auto: bool)
  datatype IssueWire = IssueWire(issueType: string, context: string, reference: Option<string>, uuid: string)
  datatype CheckWire = CheckWire(enabled: bool, slug: string)
  datatype ResolutionInfoWire = ResolutionInfoWire(
    suggestions: seq<SuggestionWire>, unsupported: seq<string>, unhealthy: seq<string>,
    issues: seq<IssueWire>, checks: seq<CheckWire>)

  /** Decoding a suggestion: `type` is lenient, `context` strict, so only an unknown context is an error. */
  function DecodeSuggestion(w: SuggestionWire): (r: Result<Suggestion, string>)
    ensures r.Ok? <==> ParseContextType(w.context).Some?
    ensures r.Err? ==> r.error == w.context
    ensures r.Ok? ==> && r.value.suggestionType == Decode(ParseSuggestionType, w.suggestionType)
                      && Some(r.value.context) == ParseContextType(w.context)
                      && r.value.reference == w.reference && r.value.uuid == w.uuid && r.value.auto == w.auto
  {
    match DecodeStrict(ParseContextType, w.context)
    case Err(s) => Err(s)
    case Ok(c) => Ok(Suggestion(Decode(ParseSuggestionType, w.suggestionType), c, w.reference, w.uuid, w.auto))
  }

  function EncodeSuggestion(s: Suggestion): SuggestionWire
  {
    SuggestionWire(Encode(SuggestionTypeValue, s.suggestionType), ContextTypeValue(s.context), s.reference, s.uuid, s.auto)
  }

  /** Decoding an issue: `type` is lenient, `context` strict. */
  function DecodeIssue(w: IssueWire): (r: Result<Issue, string>)
    ensures r.Ok? <==> ParseContextType(w.context).Some?
    ensures r.Err? ==> r.error == w.context
    ensures r.Ok? ==> && r.value.issueType == Decode(ParseIssueType, w.issueType)
                      && Some(r.value.context) == ParseContextType(w.context)
                      && r.value.reference == w.reference && r.value.uuid == w.uuid
  {
    match DecodeStrict(ParseContextType, w.context)
    case Err(s) => Err(s)
    case Ok(c) => Ok(Issue(Decode(ParseIssueType, w.issueType), c, w.reference, w.uuid))
  }

  function EncodeIssue(i: Issue): IssueWire
  {
    IssueWire(Encode(IssueTypeValue, i.issueType), ContextTypeValue(i.context), i.reference, i.uuid)
  }

  /** Decoding a check never fails: `slug` is lenient. */
  function DecodeCheck(w: CheckWire): Check
  {
    Check(w.enabled, Decode(ParseCheckType, w.slug))
  }

  function EncodeCheck(c: Check): CheckWire
  {
    CheckWire(c.enabled, Encode(CheckTypeValue, c.slug))
  }

  /** Every enum field of a decoded record is canonical: a raw string is never a known value's. */
  predicate CanonicalSuggestion(s: Suggestion)
  {
    Canonical(ParseSuggestionType, s.suggestionType)
  }

  predicate CanonicalIssue(i: Issue)
  {
    Canonical(ParseIssueType, i.issueType)
  }

  predicate CanonicalCheck(c: Check)
  {
    Canonical(ParseCheckType, c.slug)
  }

  /** Suggestions go both ways: a received one is re-encoded exactly, and a canonical one decodes back to itself. */
  lemma SuggestionRoundTrip(w: SuggestionWire, s: Suggestion)
    ensures DecodeSuggestion(w).Ok? ==> EncodeSuggestion(DecodeSuggestion(w).value) == w
    ensures DecodeSuggestion(w).Ok? ==> CanonicalSuggestion(DecodeSuggestion(w).value)
    ensures CanonicalSuggestion(s) ==> DecodeSuggestion(EncodeSuggestion(s)) == Ok(s)
  {
    SuggestionTypeCodec();
    ContextTypeCodec();
    if CanonicalSuggestion(s) {
      DecodeEncode(SuggestionTypeValue, ParseSuggestionType, s.suggestionType);
    }
  }

  lemma IssueRoundTrip(w: IssueWire, i: Issue)
    ensures DecodeIssue(w).Ok? ==> EncodeIssue(DecodeIssue(w).value) == w
    ensures DecodeIssue(w).Ok? ==> CanonicalIssue(DecodeIssue(w).value)
    ensures CanonicalIssue(i) ==> DecodeIssue(EncodeIssue(i)) == Ok(i)
  {
    IssueTypeCodec();
    ContextTypeCodec();
    if CanonicalIssue(i) {
      DecodeEncode(IssueTypeValue, ParseIssueType, i.issueType);
    }
  }

  lemma CheckRoundTrip(w: CheckWire, c: Check)
    ensures EncodeCheck(DecodeCheck(w)) == w
    ensures CanonicalCheck(DecodeCheck(w))
    ensures CanonicalCheck(c) ==> DecodeCheck(EncodeCheck(c)) == c
  {
    CheckTypeCodec();
    if CanonicalCheck(c) {
      DecodeEncode(CheckTypeValue, ParseCheckType, c.slug);
    }
  }

  /** Element-wise decoding of a list of records, in order; the first failing element's error is the result. */
  function DecodeAll<A, B>(f: A -> Result<B, string>, xs: seq<A>): (r: Result<seq<B>, string>)
    ensures r.Ok? <==> forall i :: 0 <= i < |xs| ==> f(xs[i]).Ok?
    ensures r.Ok? ==> |r.value| == |xs| && forall i :: 0 <= i < |xs| ==> r.value[i] == f(xs[i]).value
    ensures r.Err? ==> exists i :: 0 <= i < |xs| && f(xs[i]) == Err(r.error)
    decreases |xs|
  {
    if xs == [] then Ok([])
    else
      match f(xs[0])
      case Err(e) => Err(e)
      case Ok(y) =>
        var rest := DecodeAll(f, xs[1..]);
        assert forall i :: 1 <= i < |xs| ==> xs[i] == xs[1..][i - 1];
        match rest
        case Err(e) => Err(e)
        case Ok(ys) => Ok([y] + ys)
  }

  /** Decoding a resolution info response: the lists are decoded element-wise, and only an unknown context fails. */
  function DecodeResolutionInfo(w: ResolutionInfoWire): (r: Result<ResolutionInfo, string>)
    ensures r.Ok? <==> && (forall k :: 0 <= k < |w.suggestions| ==> ParseContextType(w.suggestions[k].context).Some?)
                       && (forall k :: 0 <= k < |w.issues| ==> ParseContextType(w.issues[k].context).Some?)
    ensures r.Ok? ==> && |r.value.suggestions| == |w.suggestions| && |r.value.issues| == |w.issues|
                      && (forall k :: 0 <= k < |w.suggestions| ==> Ok(r.value.suggestions[k]) == DecodeSuggestion(w.suggestions[k]))
                      && (forall k :: 0 <= k < |w.issues| ==> Ok(r.value.issues[k]) == DecodeIssue(w.issues[k]))
                      && r.value.unsupported == DecodeList(ParseUnsupportedReason, w.unsupported)
                      && r.value.unhealthy == DecodeList(ParseUnhealthyReason, w.unhealthy)
                      && |r.value.checks| == |w.checks|
                      && (forall k :: 0 <= k < |w.checks| ==> r.value.checks[k] == DecodeCheck(w.checks[k]))
    ensures r.Err? ==> ParseContextType(r.error).None?
  {
    match DecodeAll(DecodeSuggestion, w.suggestions)
    case Err(e) => Err(e)
    case Ok(ss) =>
      match DecodeAll(DecodeIssue, w.issues)
      case Err(e) => Err(e)
      case Ok(iss) =>
        Ok(ResolutionInfo(ss, DecodeList(ParseUnsupportedReason, w.unsupported),
                          DecodeList(ParseUnhealthyReason, w.unhealthy), iss,
                          seq(|w.checks|, k requires 0 <= k < |w.checks| => DecodeCheck(w.checks[k]))))
  }

  /** Unknown reasons survive decoding: the received `unsupported` and `unhealthy` lists come back, in order, when re-encoded. */
  lemma ReasonListsPreserved(w: ResolutionInfoWire)
    requires DecodeResolutionInfo(w).Ok?
    ensures EncodeList(UnsupportedReasonValue, DecodeResolutionInfo(w).value.unsupported) == w.unsupported
    ensures EncodeList(UnhealthyReasonValue, DecodeResolutionInfo(w).value.unhealthy) == w.unhealthy
  {
    UnsupportedReasonCodec();
    UnhealthyReasonCodec();
    EncodeDecodeList(UnsupportedReasonValue, ParseUnsupportedReason, w.unsupported);
    EncodeDecodeList(UnhealthyReasonValue, ParseUnhealthyReason, w.unhealthy);
  }

  /** The values read from the resolution info fixture: known strings become members, and the unhealthy list keeps its one entry. */
  lemma FixtureValues()
    ensures Decode(ParseSuggestionType, "create_full_backup") == Known(CreateFullBackup)
    ensures Decode(ParseIssueType, "no_current_backup") == Known(NoCurrentBackup)
    ensures Decode(ParseCheckType, "backups") == Known(Backups)
    ensures ParseContextType("system") == Some(ContextType.System)
    ensures DecodeList(ParseUnhealthyReason, ["supervisor"]) == [Known(UnhealthyReason.Supervisor)]
    ensures DecodeList(ParseUnsupportedReason, []) == []
  {
    DecodeListPointwise(ParseUnhealthyReason, ["supervisor"]);
  }

  /** A value the client does not know yet is kept, not rejected, in every lenient field; an unknown context is rejected. */
  lemma UnknownValuesKept(w: SuggestionWire)
    requires ParseSuggestionType(w.suggestionType).None?
    ensures DecodeSuggestion(w).Ok? ==> DecodeSuggestion(w).value.suggestionType == Unknown(w.suggestionType)
    ensures DecodeCheck(CheckWire(true, w.suggestionType)).slug.Unknown? == ParseCheckType(w.suggestionType).None?
    ensures ParseCheckType(w.suggestionType).None? ==> DecodeCheck(CheckWire(true, w.suggestionType)).slug == Unknown(w.suggestionType)
    ensures DecodeSuggestion(SuggestionWire(w.suggestionType, "future_context", None, "", false)) == Err("future_context")
  {
  }
}
