/**
 * The extension's settings: the values `get_settings` falls back to when a
 * key was never stored, and the numeric change handlers of the settings
 * panel, which parse, default and clamp what the user typed.
 */
module Settings {
  import opened Wrappers

  const DefaultEnabled := true
  const DefaultAssistantName := "Beholder"
  const DefaultEndpointUrl := ""
  const DefaultMainChatDepth := 5
  const DefaultAssistantChatDepth := 10
  const DefaultMinWait := 30
  const DefaultMaxWait := 120

  /** Both guards of `start_auto_gen_timer`: enabled, and an endpoint set. */
  predicate CanAutoGenerate(s: Stored) {
    Enabled(s) && EndpointUrl(s) != ""
  }

  /** The stored settings object, restricted to the keys the scheduler and
      the context builder read; `None` is a key the object does not own. */
  datatype Stored = Stored(
    enabled: Option<bool>,
    assistantName: Option<string>,
    endpointUrl: Option<string>,
    mainChatDepth: Option<int>,
    assistantChatDepth: Option<int>,
    minWait: Option<int>,
    maxWait: Option<int>)

  // `get_settings(key)`, one reader per key: the stored value when the
  // object owns the key, the default otherwise.
  function Enabled(s: Stored): bool { s.enabled.GetOr(DefaultEnabled) }
  function AssistantName(s: Stored): string { s.assistantName.GetOr(DefaultAssistantName) }
  function EndpointUrl(s: Stored): string { s.endpointUrl.GetOr(DefaultEndpointUrl) }
  function MainChatDepth(s: Stored): int { s.mainChatDepth.GetOr(DefaultMainChatDepth) }
  function AssistantChatDepth(s: Stored): int { s.assistantChatDepth.GetOr(DefaultAssistantChatDepth) }
  function MinWait(s: Stored): int { s.minWait.GetOr(DefaultMinWait) }
  function MaxWait(s: Stored): int { s.maxWait.GetOr(DefaultMaxWait) }

  /** Key by key, a key the object does not own reads its default, and a
      stored value wins over the default. */
  lemma ReadsFallBackToDefaults(s: Stored)
    ensures s.enabled.None? ==> Enabled(s) == true
    ensures s.assistantName.None? ==> AssistantName(s) == "Beholder"
    ensures s.endpointUrl.None? ==> EndpointUrl(s) == ""
    ensures s.mainChatDepth.None? ==> MainChatDepth(s) == 5
    ensures s.assistantChatDepth.None? ==> AssistantChatDepth(s) == 10
    ensures s.minWait.None? ==> MinWait(s) == 30
    ensures s.maxWait.None? ==> MaxWait(s) == 120
    ensures s.enabled.Some? ==> Enabled(s) == s.enabled.value
    ensures s.assistantName.Some? ==> AssistantName(s) == s.assistantName.value
    ensures s.endpointUrl.Some? ==> EndpointUrl(s) == s.endpointUrl.value
    ensures s.mainChatDepth.Some? ==> MainChatDepth(s) == s.mainChatDepth.value
    ensures s.assistantChatDepth.Some? ==> AssistantChatDepth(s) == s.assistantChatDepth.value
    ensures s.minWait.Some? ==> MinWait(s) == s.minWait.value
    ensures s.maxWait.Some? ==> MaxWait(s) == s.maxWait.value
  {
  }

  /** `parseInt(text) || fallback`: `parsed` is what `parseInt` returned,
      `None` standing for `NaN`; `NaN` and `0` are falsy and give way to the
      fallback. */
  function ParsedOr(parsed: Option<int>, fallback: int): (v: int)
    ensures v == fallback <==> (parsed == None || parsed == Some(0) || parsed == Some(fallback))
    ensures v != fallback ==> parsed == Some(v)
  {
    if parsed == None || parsed == Some(0) then fallback else parsed.value
  }

  /** `Math.max(lo, Math.min(hi, v))`. */
  function Clamp(v: int, lo: int, hi: int): (r: int)
    requires lo <= hi
    ensures lo <= r <= hi
    ensures lo <= v <= hi ==> r == v
    ensures v < lo ==> r == lo
    ensures hi < v ==> r == hi
  {
    if v < lo then lo else if hi < v then hi else v
  }

  /** The `main_chat_depth` handler's stored value. */
  function MainChatDepthInput(parsed: Option<int>): (d: int)
    ensures 1 <= d <= 20
    ensures parsed == None || parsed == Some(0) ==> d == DefaultMainChatDepth
    ensures parsed.Some? && parsed.value != 0 ==> d == Clamp(parsed.value, 1, 20)
  {
    Clamp(ParsedOr(parsed, DefaultMainChatDepth), 1, 20)
  }

  /** The `assistant_chat_depth` handler's stored value. */
  function AssistantChatDepthInput(parsed: Option<int>): (d: int)
    ensures 1 <= d <= 20
    ensures parsed == None || parsed == Some(0) ==> d == DefaultAssistantChatDepth
    ensures parsed.Some? && parsed.value != 0 ==> d == Clamp(parsed.value, 1, 20)
  {
    Clamp(ParsedOr(parsed, DefaultAssistantChatDepth), 1, 20)
  }

  /** The `min_wait` handler's stored value, in seconds. */
  function MinWaitInput(parsed: Option<int>): (w: int)
    ensures 5 <= w <= 300
    ensures parsed == None || parsed == Some(0) ==> w == DefaultMinWait
    ensures parsed.Some? && parsed.value != 0 ==> w == Clamp(parsed.value, 5, 300)
  {
    Clamp(ParsedOr(parsed, DefaultMinWait), 5, 300)
  }

  /** The `max_wait` handler's stored value, in seconds: the clamped input,
      raised to `minWait + 10` when it is below that. `minWait` is what
      `get_settings('min_wait')` reads at that moment. */
  function MaxWaitInput(parsed: Option<int>, minWait: int): (w: int)
    ensures w >= minWait + 10 && w >= 10
    ensures w >= Clamp(ParsedOr(parsed, DefaultMaxWait), 10, 600)
    ensures w == minWait + 10 || w == Clamp(ParsedOr(parsed, DefaultMaxWait), 10, 600)
    ensures minWait <= 590 ==> w <= 600
  {
    var v := Clamp(ParsedOr(parsed, DefaultMaxWait), 10, 600);
    if v < minWait + 10 then minWait + 10 else v
  }

  /** The handlers write the stored value back into their input field;
      reading that field again stores the same value. */
  lemma HandlersAreIdempotent(parsed: Option<int>, minWait: int)
    ensures MainChatDepthInput(Some(MainChatDepthInput(parsed))) == MainChatDepthInput(parsed)
    ensures AssistantChatDepthInput(Some(AssistantChatDepthInput(parsed))) == AssistantChatDepthInput(parsed)
    ensures MinWaitInput(Some(MinWaitInput(parsed))) == MinWaitInput(parsed)
    ensures MaxWaitInput(Some(MaxWaitInput(parsed, minWait)), minWait) == MaxWaitInput(parsed, minWait)
  {
  }

  /** The wait bounds as the two timing handlers leave them: whatever was
      typed, `min_wait` lies in [5, 300] and `max_wait`, set after it, in
      [min_wait + 10, 600]. */
  lemma WaitBoundsAfterHandlers(minText: Option<int>, maxText: Option<int>)
    ensures var lo := MinWaitInput(minText);
      var hi := MaxWaitInput(maxText, lo);
      5 <= lo <= 300 && lo + 10 <= hi <= 600
  {
  }

  /** `min_wait` is not checked against `max_wait`: raising it afterwards
      leaves the pair below the 10-second gap. */
  lemma MinWaitCanOvertakeMaxWait()
    ensures var hi := MaxWaitInput(Some(60), MinWaitInput(None));
      var lo := MinWaitInput(Some(300));
      hi == 60 && hi < lo + 10
  {
  }
}
