/**
 Shielded-VM settings: the MachineSet controller rewrites its template, create() rewrites the
 machine it is creating, and both look at the same boot image.
 */
module ShieldedConfiguration {
  import opened Common
  import opened Machines
  import opened MachineTypeCache

  const DEFAULT := ShieldedConfig("", "", "")
  const DISABLED := ShieldedConfig("Disabled", "Disabled", "Disabled")

  datatype InstanceSettings = InstanceSettings(secureBoot: bool, vtpm: bool, integrity: bool, forceSend: seq<string>)

  /** The UEFI check's answer for the boot image, or its failure. */
  datatype Image = Uefi | Legacy | Unreadable

  /** create()'s rewrite: None when the image check failed, which ends create(). */
  function Rewritten(config: ShieldedConfig, image: Image): Option<ShieldedConfig> {
    if config != DEFAULT then Some(config)
    else match image
      case Unreadable => None
      case Uefi => Some(config)
      case Legacy => Some(DISABLED)
  }

  /** The instance fields create() derives from the configuration. */
  function Settings(config: ShieldedConfig): InstanceSettings {
    InstanceSettings(
      config.secureBoot == "Enabled",
      config.vtpm != "Disabled",
      config.integrity != "Disabled",
      (if config.vtpm == "Disabled" then ["EnableVtpm"] else []) +
      (if config.integrity == "Disabled" then ["EnableIntegrityMonitoring"] else []))
  }

  method ApplyShieldedConfig(config: ShieldedConfig, image: Image)
    returns (stored: ShieldedConfig, settings: Option<InstanceSettings>)
    ensures settings == match Rewritten(config, image) case None => None case Some(c) => Some(Settings(c))
    ensures stored == match Rewritten(config, image) case None => config case Some(c) => c
  {
    stored := config;
    var secureBoot, vtpm, integrity, forceSend := false, true, true, [];
    if stored == DEFAULT {
      if image == Unreadable {
        return stored, None;
      }
      if image == Legacy {
        stored := ShieldedConfig("Disabled", "Disabled", "Disabled");
      }
    }
    if stored.secureBoot == "Enabled" {
      secureBoot := true;
    }
    if stored.vtpm == "Disabled" {
      vtpm := false;
      forceSend := forceSend + ["EnableVtpm"];
    }
    if stored.integrity == "Disabled" {
      integrity := false;
      forceSend := forceSend + ["EnableIntegrityMonitoring"];
    }
    assert forceSend == Settings(stored).forceSend;
    settings := Some(InstanceSettings(secureBoot, vtpm, integrity, forceSend));
  }

  /** The MachineSet controller's rewrite of its template; a failed image check leaves it alone. */
  function TemplateAfter(template: ShieldedConfig, image: Image): ShieldedConfig {
    if image == Legacy && template == DEFAULT then DISABLED else template
  }

  /** A MachineSet, as far as the controller's reconcile overwrites it. */
  class MachineSet {
    var template: ShieldedConfig
    var capacity: Option<MachineInfo>  // the vCPU and memory annotations

    constructor (template: ShieldedConfig)
      ensures this.template == template && capacity == None
    {
      this.template := template;
      capacity := None;
    }

    /** A type that is unknown or could not be fetched ends the reconcile before the image is looked at. */
    method Reconcile(cache: MachineTypesCache, l: Lookup, image: Image) returns (ok: bool)
      modifies this, cache
      ensures cache.entries == After(old(cache.entries), l)
      ensures var reply := ReplyTo(old(cache.entries), l);
        && (reply.Found? ==>
              && capacity == Some(reply.info)
              && template == TemplateAfter(old(template), image) && ok == (image != Unreadable))
        && (!reply.Found? ==> capacity == old(capacity) && template == old(template) && ok == reply.Unknown?)
    {
      var reply := cache.GetMachineTypeFromCache(l);
      if !reply.Found? {
        return reply.Unknown?;
      }
      capacity := Some(reply.info);
      if image == Unreadable {
        return false;
      }
      if image == Legacy && template == DEFAULT {
        template := ShieldedConfig("Disabled", "Disabled", "Disabled");
      }
      return true;
    }
  }

  /** A flag is force-sent exactly when it is off, so the API never reads it as unset. */
  lemma DisabledFlagsAreSent(config: ShieldedConfig)
    ensures "EnableVtpm" in Settings(config).forceSend <==> !Settings(config).vtpm
    ensures "EnableIntegrityMonitoring" in Settings(config).forceSend <==> !Settings(config).integrity
  {
    var s := Settings(config).forceSend;
    if config.vtpm == "Disabled" {
      assert s[0] == "EnableVtpm";
    }
    if config.integrity == "Disabled" {
      assert s[|s| - 1] == "EnableIntegrityMonitoring";
    }
    assert "EnableVtpm"[6] != "EnableIntegrityMonitoring"[6];
  }

  // ----- any order of template rewrites, stamping and create attempts -----

  datatype Step =
    | ReconcileSet(image: Image)      // the MachineSet controller
    | Stamp                           // a machine is made from the template
    | TryCreate(image: Image, persisted: bool) // create(); its rewrite of the spec may or may not be stored

  /** `inserted` holds the settings of every instance requested so far. */
  datatype State = State(template: ShieldedConfig, machine: Option<ShieldedConfig>, inserted: seq<InstanceSettings>)

  function Next(s: State, step: Step): State {
    match step
    case ReconcileSet(image) => s.(template := TemplateAfter(s.template, image))
    case Stamp => if s.machine.None? then s.(machine := Some(s.template)) else s
    case TryCreate(image, persisted) =>
      if s.machine.None? then s
      else match Rewritten(s.machine.value, image)
        case None => s
        case Some(c) => State(s.template, if persisted then Some(c) else s.machine, s.inserted + [Settings(c)])
  }

  function Replay(s: State, steps: seq<Step>): State
    decreases |steps|
  {
    if steps == [] then s else Replay(Next(s, steps[0]), steps[1..])
  }

  /** The image is what it is; a check may fail, but never answers differently. */
  ghost predicate SeesImage(step: Step, image: Image) {
    step.Stamp? || step.image == Unreadable || step.image == image
  }

  /** Both rewrites lead to the same settings: what the original template gives on this image. */
  ghost predicate Confluent(config: ShieldedConfig, original: ShieldedConfig, image: Image) {
    Rewritten(config, image) == Rewritten(original, image)
  }

  ghost predicate Invariant(s: State, original: ShieldedConfig, image: Image) {
    && Confluent(s.template, original, image)
    && (s.machine.Some? ==> Confluent(s.machine.value, original, image))
    && forall i :: 0 <= i < |s.inserted| ==> Some(s.inserted[i]) == ExpectedSettings(original, image)
  }

  ghost function ExpectedSettings(original: ShieldedConfig, image: Image): Option<InstanceSettings> {
    match Rewritten(original, image)
    case None => None
    case Some(c) => Some(Settings(c))
  }

  /**
   What an instance gets, spelled out: the defaults on a UEFI image, everything off on another, or what the spec says.
   */
  lemma SettingsByImage(config: ShieldedConfig, image: Image)
    ensures config == ShieldedConfig("", "", "") && image == Unreadable ==> ExpectedSettings(config, image) == None
    ensures config == ShieldedConfig("", "", "") && image == Uefi ==>
      ExpectedSettings(config, image) == Some(InstanceSettings(false, true, true, []))
    ensures config == ShieldedConfig("", "", "") && image == Legacy ==>
      ExpectedSettings(config, image) ==
      Some(InstanceSettings(false, false, false, ["EnableVtpm", "EnableIntegrityMonitoring"]))
    ensures config != ShieldedConfig("", "", "") ==>
      && ExpectedSettings(config, image).Some?
      && ExpectedSettings(config, image).value.secureBoot == (config.secureBoot == "Enabled")
      && ExpectedSettings(config, image).value.vtpm == (config.vtpm != "Disabled")
      && ExpectedSettings(config, image).value.integrity == (config.integrity != "Disabled")
  {
    assert Settings(DEFAULT).forceSend == [];
    assert Settings(DISABLED).forceSend == ["EnableVtpm", "EnableIntegrityMonitoring"];
  }

  /**
   What the rewrite of the template is for: after the controller has read the image, a machine stamped
   from the template gets that image's settings even from a create() that cannot read the image any
   more, if and only if the image was a legacy one or the configuration was set.
   */
  lemma RewriteOutlivesImageExactlyWhen(template: ShieldedConfig, image: Image)
    requires image != Unreadable
    ensures ExpectedSettings(TemplateAfter(template, image), Unreadable) == ExpectedSettings(template, image) <==>
            image == Legacy || template != ShieldedConfig("", "", "")
  {
  }

  lemma NextKeepsInvariant(s: State, step: Step, original: ShieldedConfig, image: Image)
    requires Invariant(s, original, image) && SeesImage(step, image) && image != Unreadable
    ensures Invariant(Next(s, step), original, image)
  {
  }

  /**
   Confluence: whether the template is rewritten before the machine is stamped, between, after, or
   never, and however often create() is retried, whether or not its rewrite was stored, every
   requested instance has the settings that the original template gives on this image.
   */
  lemma {:induction false} SameSettingsOnEveryPath(s: State, steps: seq<Step>, original: ShieldedConfig, image: Image)
    requires image != Unreadable && Invariant(s, original, image)
    requires forall i :: 0 <= i < |steps| ==> SeesImage(steps[i], image)
    ensures Invariant(Replay(s, steps), original, image)
    decreases |steps|
  {
    if steps == [] {
    } else {
      NextKeepsInvariant(s, steps[0], original, image);
      SameSettingsOnEveryPath(Next(s, steps[0]), steps[1..], original, image);
    }
  }

  /** The statement from the beginning: a template nobody has touched, no machine, no instance. */
  lemma ShieldedConfluence(original: ShieldedConfig, steps: seq<Step>, image: Image)
    requires image != Unreadable && forall i :: 0 <= i < |steps| ==> SeesImage(steps[i], image)
    ensures forall i :: 0 <= i < |Replay(State(original, None, []), steps).inserted| ==>
              Some(Replay(State(original, None, []), steps).inserted[i]) == ExpectedSettings(original, image)
  {
    SameSettingsOnEveryPath(State(original, None, []), steps, original, image);
  }
}
