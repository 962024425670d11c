/**
 * The error taxonomy of the client: a closed set of exception classes, all
 * descending from `SupervisorError`, and the message and `job_id` every
 * instance carries.
 */
module Exceptions {
  import opened Wrappers

  /** The exception classes, one constructor per class. */
  datatype ErrorKind =
    | Generic                               // SupervisorError itself
    | Connection                            // SupervisorConnectionError
    | Timeout                               // SupervisorTimeoutError
    | BadRequest                            // SupervisorBadRequestError
    | Authentication                        // SupervisorAuthenticationError
    | Forbidden                             // SupervisorForbiddenError
    | NotFound                              // SupervisorNotFoundError
    | ServiceUnavailable                    // SupervisorServiceUnavailableError
    | ResponseError                         // SupervisorResponseError
    | AddonNotSupported                     // AddonNotSupportedError
    | AddonNotSupportedArchitecture         // AddonNotSupportedArchitectureError
    | AddonNotSupportedMachineType          // AddonNotSupportedMachineTypeError
    | AddonNotSupportedHomeAssistantVersion // AddonNotSupportedHomeAssistantVersionError

  /** The Python built-in exception classes the taxonomy also inherits from. */
  datatype Builtin = PyException | PyConnectionError | PyTimeoutError

  /** The direct base class of a kind within the taxonomy; `SupervisorError` has none. */
  function Parent(k: ErrorKind): Option<ErrorKind>
  {
    match k
    case Generic => None
    case AddonNotSupportedArchitecture => Some(AddonNotSupported)
    case AddonNotSupportedMachineType => Some(AddonNotSupported)
    case AddonNotSupportedHomeAssistantVersion => Some(AddonNotSupported)
    case _ => Some(Generic)
  }

  /** The number of steps from a kind up to `SupervisorError`. */
  function Depth(k: ErrorKind): nat
  {
    match k
    case Generic => 0
    case AddonNotSupportedArchitecture => 2
    case AddonNotSupportedMachineType => 2
    case AddonNotSupportedHomeAssistantVersion => 2
    case _ => 1
  }

  /** Python's `issubclass(k, ancestor)` within the taxonomy: reflexive, following base classes upward. */
  predicate IsSubclass(k: ErrorKind, ancestor: ErrorKind)
    decreases Depth(k)
  {
    k == ancestor || (Parent(k).Some? && Depth(Parent(k).value) < Depth(k) && IsSubclass(Parent(k).value, ancestor))
  }

  /** The built-in classes a kind is a subclass of besides the taxonomy. */
  function BuiltinBases(k: ErrorKind): (bs: set<Builtin>)
    ensures PyException in bs
  {
    match k
    case Connection => {PyException, PyConnectionError}
    case Timeout => {PyException, PyTimeoutError}
    case _ => {PyException}
  }

  /** Every kind in the taxonomy is a `SupervisorError`. */
  lemma {:induction false} AllAreSupervisorErrors(k: ErrorKind)
    ensures IsSubclass(k, Generic)
  {
    match k
    case AddonNotSupportedArchitecture =>
      assert IsSubclass(AddonNotSupported, Generic);
    case AddonNotSupportedMachineType =>
      assert IsSubclass(AddonNotSupported, Generic);
    case AddonNotSupportedHomeAssistantVersion =>
      assert IsSubclass(AddonNotSupported, Generic);
    case _ =>
  }

  /**
   * The shape of the hierarchy: the three add-on errors are
   * `AddonNotSupportedError`s, that class hangs directly off `SupervisorError`
   * and is not a bad-request error, only the connection and timeout errors
   * are also built-in `ConnectionError` and `TimeoutError`.
   */
  lemma Hierarchy(k: ErrorKind)
    ensures IsSubclass(k, AddonNotSupported) <==>
              k in {AddonNotSupported, AddonNotSupportedArchitecture,
                    AddonNotSupportedMachineType, AddonNotSupportedHomeAssistantVersion}
    ensures IsSubclass(k, BadRequest) <==> k == BadRequest
    ensures Parent(AddonNotSupported) == Some(Generic)
    ensures PyConnectionError in BuiltinBases(k) <==> k == Connection
    ensures PyTimeoutError in BuiltinBases(k) <==> k == Timeout
  {
  }

  /** An exception instance: its class, its `args` tuple and its `job_id` attribute. */
  datatype SupervisorError = SupervisorError(kind: ErrorKind, args: seq<string>, jobId: Option<string>)

  /** `SupervisorError.__init__`: a message becomes the single argument, no message leaves `args` empty. */
  function NewError(kind: ErrorKind, message: Option<string> := None, jobId: Option<string> := None): (e: SupervisorError)
    ensures e.kind == kind && e.jobId == jobId
    ensures message.None? <==> e.args == []
    ensures message.Some? ==> e.args == [message.value]
  {
    SupervisorError(kind, if message.Some? then [message.value] else [], jobId)
  }

  /** Python's `str(e)` for these exceptions: the single argument, or the empty string. */
  function Str(e: SupervisorError): string
  {
    if |e.args| == 1 then e.args[0] else ""
  }

  /** The message an instance was built with, read back. */
  function Message(e: SupervisorError): Option<string>
  {
    if |e.args| == 1 then Some(e.args[0]) else None
  }

  /** What the constructor was given is exactly what the instance reports. */
  lemma NewErrorRoundTrip(kind: ErrorKind, message: Option<string>, jobId: Option<string>)
    ensures Message(NewError(kind, message, jobId)) == message
    ensures NewError(kind, message, jobId).jobId == jobId
    ensures Str(NewError(kind, message, jobId)) == if message.Some? then message.value else ""
  {
  }

  const ArchitecturePrefix := "Add-on "
  /** The text shared by the three add-on messages after the slug; the word after it tells them apart. */
  const NotSupportedOn := " not supported on this "
  const ArchitectureMiddle := NotSupportedOn + "platform, supported architectures: "
  const MachineTypeMiddle := NotSupportedOn + "machine, supported machine types: "
  const VersionMiddle := NotSupportedOn + "system, requires Home Assistant version "
  const VersionSuffix := " or greater"

  /** The message of `AddonNotSupportedArchitectureError`. */
  function ArchitectureMessage(addon: string, architectures: string): string
  {
    ArchitecturePrefix + addon + ArchitectureMiddle + architectures
  }

  /** The message of `AddonNotSupportedMachineTypeError`. */
  function MachineTypeMessage(addon: string, machineTypes: string): string
  {
    ArchitecturePrefix + addon + MachineTypeMiddle + machineTypes
  }

  /** The message of `AddonNotSupportedHomeAssistantVersionError`. */
  function VersionMessage(addon: string, version: string): string
  {
    ArchitecturePrefix + addon + VersionMiddle + version + VersionSuffix
  }

  /** `AddonNotSupportedArchitectureError(addon, architectures, job_id)`. */
  function ArchitectureError(addon: string, architectures: string, jobId: Option<string> := None): (e: SupervisorError)
    ensures e.kind == AddonNotSupportedArchitecture && IsSubclass(e.kind, AddonNotSupported)
    ensures !IsSubclass(e.kind, BadRequest)
    ensures Message(e) == Some(ArchitectureMessage(addon, architectures)) && e.jobId == jobId
  {
    NewError(AddonNotSupportedArchitecture, Some(ArchitectureMessage(addon, architectures)), jobId)
  }

  /** `AddonNotSupportedMachineTypeError(addon, machine_types, job_id)`. */
  function MachineTypeError(addon: string, machineTypes: string, jobId: Option<string> := None): (e: SupervisorError)
    ensures e.kind == AddonNotSupportedMachineType && IsSubclass(e.kind, AddonNotSupported)
    ensures !IsSubclass(e.kind, BadRequest)
    ensures Message(e) == Some(MachineTypeMessage(addon, machineTypes)) && e.jobId == jobId
  {
    NewError(AddonNotSupportedMachineType, Some(MachineTypeMessage(addon, machineTypes)), jobId)
  }

  /** `AddonNotSupportedHomeAssistantVersionError(addon, version, job_id)`. */
  function VersionError(addon: string, version: string, jobId: Option<string> := None): (e: SupervisorError)
    ensures e.kind == AddonNotSupportedHomeAssistantVersion && IsSubclass(e.kind, AddonNotSupported)
    ensures !IsSubclass(e.kind, BadRequest)
    ensures Message(e) == Some(VersionMessage(addon, version)) && e.jobId == jobId
  {
    NewError(AddonNotSupportedHomeAssistantVersion, Some(VersionMessage(addon, version)), jobId)
  }

  /** The characters of `s` up to its first space: how a reader finds where an add-on slug ends. */
  function UpToSpace(s: string): string
    decreases |s|
  {
    if s == [] || s[0] == ' ' then [] else [s[0]] + UpToSpace(s[1..])
  }

  /** A name with no space, followed by text that starts with a space, is read back exactly. */
  lemma {:induction false} UpToSpaceOfName(a: string, t: string)
    requires ' ' !in a
    requires |t| > 0 && t[0] == ' '
    ensures UpToSpace(a + t) == a
    decreases |a|
  {
    if a != [] {
      assert (a + t)[1..] == a[1..] + t;
      UpToSpaceOfName(a[1..], t);
    }
  }

  /**
   * For messages `Add-on <addon><rest>` whose add-on names hold no space and
   * whose rests start with a space, equal messages have equal add-on names
   * and equal rests.
   */
  lemma SplitAtAddon(a1: string, t1: string, a2: string, t2: string)
    requires ' ' !in a1 && ' ' !in a2
    requires |t1| > 0 && t1[0] == ' ' && |t2| > 0 && t2[0] == ' '
    ensures ArchitecturePrefix + a1 + t1 == ArchitecturePrefix + a2 + t2 ==> a1 == a2 && t1 == t2
  {
    var p := |ArchitecturePrefix|;
    if ArchitecturePrefix + a1 + t1 == ArchitecturePrefix + a2 + t2 {
      var m := ArchitecturePrefix + a1 + t1;
      assert m[p..] == a1 + t1;
      assert (ArchitecturePrefix + a2 + t2)[p..] == a2 + t2;
      UpToSpaceOfName(a1, t1);
      UpToSpaceOfName(a2, t2);
      assert t1 == (a1 + t1)[|a1|..];
      assert t2 == (a2 + t2)[|a2|..];
    }
  }

  /** For add-on slugs without spaces the architecture message determines the add-on and the architectures. */
  lemma ArchitectureMessageInjective(a1: string, x1: string, a2: string, x2: string)
    requires ' ' !in a1 && ' ' !in a2
    requires ArchitectureMessage(a1, x1) == ArchitectureMessage(a2, x2)
    ensures a1 == a2 && x1 == x2
  {
    assert ArchitectureMessage(a1, x1) == ArchitecturePrefix + a1 + (ArchitectureMiddle + x1);
    assert ArchitectureMessage(a2, x2) == ArchitecturePrefix + a2 + (ArchitectureMiddle + x2);
    assert NotSupportedOn[0] == ' ';
    SplitAtAddon(a1, ArchitectureMiddle + x1, a2, ArchitectureMiddle + x2);
    assert x1 == (ArchitectureMiddle + x1)[|ArchitectureMiddle|..];
    assert x2 == (ArchitectureMiddle + x2)[|ArchitectureMiddle|..];
  }

  /** Two messages whose words after "not supported on this" start differently are different messages. */
  lemma WordAfterSlugDiffers(a1: string, w1: string, a2: string, w2: string)
    requires ' ' !in a1 && ' ' !in a2
    requires |w1| > 0 && |w2| > 0 && w1[0] != w2[0]
    ensures ArchitecturePrefix + a1 + (NotSupportedOn + w1) != ArchitecturePrefix + a2 + (NotSupportedOn + w2)
  {
    assert NotSupportedOn[0] == ' ' && |NotSupportedOn| == 23;
    SplitAtAddon(a1, NotSupportedOn + w1, a2, NotSupportedOn + w2);
    assert (NotSupportedOn + w1)[23] == w1[0];
    assert (NotSupportedOn + w2)[23] == w2[0];
  }

  /** For add-on slugs without spaces the three add-on messages never coincide. */
  lemma AddonMessagesDistinct(a1: string, x: string, a2: string, y: string)
    requires ' ' !in a1 && ' ' !in a2
    ensures ArchitectureMessage(a1, x) != MachineTypeMessage(a2, y)
    ensures ArchitectureMessage(a1, x) != VersionMessage(a2, y)
    ensures MachineTypeMessage(a1, x) != VersionMessage(a2, y)
  {
    var arch := "platform, supported architectures: " + x;
    var machineX := "machine, supported machine types: " + x;
    var machineY := "machine, supported machine types: " + y;
    var version := "system, requires Home Assistant version " + y + VersionSuffix;
    assert ArchitectureMessage(a1, x) == ArchitecturePrefix + a1 + (NotSupportedOn + arch);
    assert MachineTypeMessage(a1, x) == ArchitecturePrefix + a1 + (NotSupportedOn + machineX);
    assert MachineTypeMessage(a2, y) == ArchitecturePrefix + a2 + (NotSupportedOn + machineY);
    assert VersionMessage(a2, y) == ArchitecturePrefix + a2 + (NotSupportedOn + version);
    WordAfterSlugDiffers(a1, arch, a2, machineY);
    WordAfterSlugDiffers(a1, arch, a2, version);
    WordAfterSlugDiffers(a1, machineX, a2, version);
  }
}
