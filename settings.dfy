/** The three settings filters of class-settings.php: each reads the stored option
    `remote_backstop_settings` and overrides the value it filters. */
module Settings {
  import opened Platform

  /** `$options['key']` on what `get_option` returned (none stands for `false`). */
  function Setting(stored: Option<Args>, key: string): (v: Value)
    ensures stored.None? ==> v == Null
    ensures stored.Some? ==> v == Lookup(stored.value, key)
  {
    if stored.Some? then Lookup(stored.value, key) else Null
  }

  /** PHP's `empty( $options )` on the stored option: absent or an empty array. */
  predicate OptionsEmpty(stored: Option<Args>) {
    stored.None? || stored.value == map[]
  }

  /** `remote_backstop_disable`: a non-empty stored `disable` turns the backstop off;
      otherwise the filtered value passes through. */
  function Disable(stored: Option<Args>, enabled: bool): (r: bool)
    ensures !Empty(Setting(stored, "disable")) ==> !r
    ensures Empty(Setting(stored, "disable")) ==> r == enabled
  {
    if !Empty(Setting(stored, "disable")) then false else enabled
  }

  /** `remote_backstop_ttl`: a non-empty stored `ttl`, cast to an integer, replaces the
      filtered TTL; an empty one (absent, "", "0" or 0) lets it through. */
  function Ttl(stored: Option<Args>, ttl: int): (r: int)
    ensures !Empty(Setting(stored, "ttl")) ==> r == ToInt(Setting(stored, "ttl"))
    ensures Empty(Setting(stored, "ttl")) ==> r == ttl
  {
    if !Empty(Setting(stored, "ttl")) then ToInt(Setting(stored, "ttl")) else ttl
  }

  /** `remote_backstop_request_options`: `wp_parse_args( $options, $args )`, so stored keys
      override, keys missing from storage keep their value, and the key set is the union. */
  function RequestOptions(stored: Option<Args>, args: Args): (r: Args)
    ensures OptionsEmpty(stored) ==> r == args
    ensures !OptionsEmpty(stored) ==> r.Keys == args.Keys + stored.value.Keys
    ensures !OptionsEmpty(stored) ==> forall k :: k in stored.value ==> r[k] == stored.value[k]
    ensures forall k :: k in args && (stored.None? || k !in stored.value) ==> r[k] == args[k]
  {
    if OptionsEmpty(stored) then args else args + stored.value
  }

  /** A TTL typed into the settings page (stored as its decimal text) is the TTL the
      filter returns, except 0, which lets the filtered TTL through; a TTL beyond the
      64-bit range comes back saturated at `PHP_INT_MAX` or `PHP_INT_MIN`. */
  lemma StoredTextTtl(n: int, ttl: int)
    ensures var stored := Some(map["ttl" := Str(IntToString(n))]);
      Ttl(stored, ttl) == if n == 0 then ttl else Saturate(n)
  {
    IntCastRoundTrip(n);
    assert IntToString(n) != "";
  }
}
