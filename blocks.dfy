/**
 * The block dispatch table: a closed union with one variant per block kind,
 * each naming its kind and forwarding `run` to that kind's module.
 */
module Blocks {
  import opened Wrappers
  import opened Errors
  import opened Api

  /** The tags of the modelled block kinds, in the order they are declared. */
  const Tags: seq<string> := ["amd_gpu", "battery", "cpu", "custom", "custom_dbus", "maildir", "time", "xrandr"]

  /** A block kind's own configuration, kept as the key-value table it was read
      from; its structure belongs to the block's module. */
  datatype Settings = Settings(table: map<string, string>)

  /** The result of the named block module's `run` on a configuration and a
      block's `CommonApi`, once its future finishes. */
  type BlockModules = (string, Settings, CommonApi) -> Result<()>

  datatype BlockConfig =
    | AmdGpu(config: Settings)
    | Battery(config: Settings)
    | Cpu(config: Settings)
    | Custom(config: Settings)
    | CustomDbus(config: Settings)
    | Maildir(config: Settings)   // built only with the "maildir" feature
    | Time(config: Settings)
    | Xrandr(config: Settings)
  {
    /** The kind's tag, as declared. */
    function Name(): (n: string)
      ensures n in Tags
    {
      match this
      case AmdGpu(_) => "amd_gpu"
      case Battery(_) => "battery"
      case Cpu(_) => "cpu"
      case Custom(_) => "custom"
      case CustomDbus(_) => "custom_dbus"
      case Maildir(_) => "maildir"
      case Time(_) => "time"
      case Xrandr(_) => "xrandr"
    }

    /**
     * Runs the block: forwards the configuration and `api` to the kind's
     * module and attributes an error it finishes with to this kind and
     * `api.id`; a success passes through.
     */
    function Run(api: CommonApi, modules: BlockModules): (r: Result<()>)
      ensures var inner := modules(Name(), config, api);
        && (inner.Ok? ==> r == inner)
        && (inner.Err? ==> r.Err? && r.error.block == Some(BlockTag(Name(), api.id))
                           && r.error.message == inner.error.message && r.error.cause == inner.error.cause)
    {
      ResultInBlock(modules(Name(), config, api), Name(), api.id)
    }
  }

  /** The variant a `block = "<tag>"` entry selects; no variant for an unknown tag. */
  function FromTag(tag: string, config: Settings): (c: Option<BlockConfig>)
    ensures c.None? <==> tag !in Tags
    ensures c.Some? ==> c.value.config == config
  {
    if tag == "amd_gpu" then Some(AmdGpu(config))
    else if tag == "battery" then Some(Battery(config))
    else if tag == "cpu" then Some(Cpu(config))
    else if tag == "custom" then Some(Custom(config))
    else if tag == "custom_dbus" then Some(CustomDbus(config))
    else if tag == "maildir" then Some(Maildir(config))
    else if tag == "time" then Some(Time(config))
    else if tag == "xrandr" then Some(Xrandr(config))
    else None
  }

  /** Every variant's name selects that very variant again. */
  lemma NameRoundTrip(c: BlockConfig)
    ensures FromTag(c.Name(), c.config) == Some(c)
  {
  }

  /** A variant selected by a tag is named by that tag. */
  lemma FromTagNamed(tag: string, config: Settings)
    requires tag in Tags
    ensures FromTag(tag, config).Some? && FromTag(tag, config).value.Name() == tag
  {
  }

  /** Two configurations have the same name exactly when they are the same variant. */
  lemma NamesDistinct(a: BlockConfig, b: BlockConfig)
    ensures a.Name() == b.Name() <==> a.(config := b.config) == b
  {
  }
}
