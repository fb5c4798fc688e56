/**
 * The command-line tool's `main` (`cli/src/main.rs`): read the stored
 * configuration or fall back to the default, run one command, and write the
 * configuration back. Only the `config` commands touch it.
 */
module ConfigCli {
  import opened Wrappers

  /** `ProviderConfig`: an optional description and an optional API key. */
  datatype ProviderConfig = ProviderConfig(description: Option<string>, apiKey: Option<string>)

  /** The contents of a `SecondBrainConfig`, as read from and written to the
      configuration file. */
  datatype ConfigValue = ConfigValue(providers: map<string, ProviderConfig>, currentProvider: string)

  datatype ConfigCommand =
    | Show
    | Add(name: string, description: Option<string>, apiKey: Option<string>)
    | Remove(name: string)
    | Set(name: string)

  datatype Command =
    | Store(content: string)
    | Read(filepath: string)
    | Talk(prompt: string)
    | Config(command: ConfigCommand)

  /** `SecondBrainConfig::default()`: no providers and an empty current provider. */
  const Default := ConfigValue(map[], "")

  /** `read_config()?.unwrap_or_default()`: the stored configuration if there is one. */
  function Initial(stored: Option<ConfigValue>): (c: ConfigValue)
    ensures stored.None? ==> c.providers == map[] && c.currentProvider == ""
    ensures stored.Some? ==> c == stored.value
  {
    match stored
    case None => Default
    case Some(value) => value
  }

  /** The command is a `config` command naming the provider `k`. */
  predicate Names(command: Command, k: string) {
    command.Config? && !command.command.Show? && command.command.name == k
  }

  /** What one command does to the configuration, key by key: `add` records
      the provider under its name, replacing any earlier one; `remove` drops
      the name if present; `set` names the current provider without checking
      that it exists; every other command leaves the configuration alone. No
      command touches a provider under another name. */
  function Apply(c: ConfigValue, command: Command): (r: ConfigValue)
    ensures command.Config? && command.command.Add? ==>
      var n := command.command.name;
      n in r.providers && r.providers[n] == ProviderConfig(command.command.description, command.command.apiKey) &&
      r.currentProvider == c.currentProvider
    ensures command.Config? && command.command.Remove? ==>
      command.command.name !in r.providers && r.currentProvider == c.currentProvider
    ensures command.Config? && command.command.Set? ==>
      r.currentProvider == command.command.name && r.providers == c.providers
    ensures !(command.Config? && command.command != Show) ==> r == c
    ensures forall k :: k in c.providers && !Names(command, k) ==>
      k in r.providers && r.providers[k] == c.providers[k]
    ensures forall k :: k in r.providers ==> k in c.providers || (command.Config? && command.command.Add? && k == command.command.name)
  {
    match command
    case Config(Add(name, description, apiKey)) =>
      c.(providers := c.providers[name := ProviderConfig(description, apiKey)])
    case Config(Remove(name)) => c.(providers := c.providers - {name})
    case Config(Set(name)) => c.(currentProvider := name)
    case _ => c
  }

  /** Removing a provider just added leaves the other providers as they were
      before the add. */
  lemma AddThenRemove(c: ConfigValue, name: string, description: Option<string>, apiKey: Option<string>)
    ensures Apply(Apply(c, Config(Add(name, description, apiKey))), Config(Remove(name))) ==
            c.(providers := c.providers - {name})
  {
    var added := Apply(c, Config(Add(name, description, apiKey)));
    var removed := Apply(added, Config(Remove(name)));
    assert removed.providers == c.providers - {name};
  }

  /** Removing a name that is not there changes nothing. */
  lemma RemoveAbsentIsNoOp(c: ConfigValue, name: string)
    requires name !in c.providers
    ensures Apply(c, Config(Remove(name))) == c
  {
    assert c.providers - {name} == c.providers;
  }

  /** The second of two adds under one name wins. */
  lemma AddTwiceKeepsLast(c: ConfigValue, name: string, first: ProviderConfig, second: ProviderConfig)
    ensures Apply(Apply(c, Config(Add(name, first.description, first.apiKey))), Config(Add(name, second.description, second.apiKey))) ==
            Apply(c, Config(Add(name, second.description, second.apiKey)))
  {
  }

  /** The configuration held by `main`, updated in place. */
  class SecondBrainConfig {
    var providers: map<string, ProviderConfig>
    var currentProvider: string

    function Value(): ConfigValue
      reads this
    {
      ConfigValue(providers, currentProvider)
    }

    constructor (value: ConfigValue)
      ensures Value() == value
    {
      providers, currentProvider := value.providers, value.currentProvider;
    }

    /** `config.providers.insert(name, provider)`. */
    method Insert(name: string, provider: ProviderConfig)
      modifies this
      ensures providers == old(providers)[name := provider] && currentProvider == old(currentProvider)
    {
      providers := providers[name := provider];
    }

    /** `config.providers.remove(&name)`. */
    method RemoveProvider(name: string)
      modifies this
      ensures providers == old(providers) - {name} && currentProvider == old(currentProvider)
    {
      providers := providers - {name};
    }

    /** `config.current_provider = name`. */
    method SetCurrent(name: string)
      modifies this
      ensures currentProvider == name && providers == old(providers)
    {
      currentProvider := name;
    }
  }

  /** `main` after argument parsing: start from the stored configuration or the
      default, run the command, and return what `write_config` writes, which
      happens after every command, together with the configurations `show`
      printed. */
  method Run(stored: Option<ConfigValue>, command: Command) returns (written: ConfigValue, shown: seq<ConfigValue>)
    ensures written == Apply(Initial(stored), command)
    ensures shown == if command == Config(Show) then [Initial(stored)] else []
  {
    var config := new SecondBrainConfig(Initial(stored));
    shown := [];
    match command {
      case Store(_) =>
      case Read(_) =>
      case Talk(_) =>
      case Config(configCommand) =>
        match configCommand {
          case Show =>
            shown := [config.Value()];
          case Add(name, description, apiKey) =>
            config.Insert(name, ProviderConfig(description, apiKey));
          case Remove(name) =>
            config.RemoveProvider(name);
          case Set(name) =>
            config.SetCurrent(name);
        }
    }
    written := config.Value();
  }
}
