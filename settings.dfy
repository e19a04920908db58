/**
 * What the capture-the-flag and the PVP script share about their persisted
 * settings: completing the dictionary from defaults right after `load_data`
 * (one `if key not in settings: settings[key] = default` per known key), and
 * the outcome of an on/off command on one of its switches.
 */
module Settings {
  import opened Host

  /** One check: `key` gets `value` only if it is missing. */
  function WithDefault(settings: map<string, Value>, key: string, value: Value): map<string, Value>
  {
    if key in settings then settings else settings[key := value]
  }

  /**
   * `settings` is `stored` completed from `defaults`: every stored key keeps
   * its value and every other key of `defaults` holds its default.
   */
  predicate Extends(settings: map<string, Value>, stored: map<string, Value>, defaults: map<string, Value>) {
    && settings.Keys == stored.Keys + defaults.Keys
    && (forall k :: k in stored ==> settings[k] == stored[k])
    && (forall k :: k in defaults && k !in stored ==> settings[k] == defaults[k])
  }

  /**
   * One more check extends the completion by the default that check would
   * write into an empty dictionary after the earlier checks.
   */
  lemma WithDefaultExtends(settings: map<string, Value>, stored: map<string, Value>, defaults: map<string, Value>,
                           key: string, value: Value)
    requires Extends(settings, stored, defaults)
    ensures Extends(WithDefault(settings, key, value), stored, WithDefault(defaults, key, value))
  {
  }

  /** What an on/off command answers, and the value it writes, if any. */
  datatype SwitchOutcome = SwitchOutcome(reply: string, write: Option<bool>)

  /** The value a switch holds after the command. */
  function After(current: bool, r: SwitchOutcome): bool {
    if r.write.Some? then r.write.value else current
  }
}
