/** The parameters panel: a local record of five generation parameters,
    written one field at a time by the sliders and wholesale by "Reset to
    Defaults". The record is independent of the selected model: switching
    models neither resets nor clamps it, and the chat snapshot does not read
    it. The selected model only decides whether sliders are offered and the
    ceiling of the max-tokens slider. */
module ParametersPanel {
  import opened Wrappers
  import opened Session

  datatype ParamName = Temperature | MaxTokens | TopP | FrequencyPenalty | PresencePenalty

  const Fields: seq<ParamName> := [Temperature, MaxTokens, TopP, FrequencyPenalty, PresencePenalty]

  function Get(p: Parameters, n: ParamName): real
  {
    match n
    case Temperature => p.temperature
    case MaxTokens => p.maxTokens
    case TopP => p.topP
    case FrequencyPenalty => p.frequencyPenalty
    case PresencePenalty => p.presencePenalty
  }

  /** The record the panel starts with and "Reset to Defaults" restores. */
  function Defaults(): (p: Parameters)
    ensures Get(p, Temperature) == 0.7 && Get(p, MaxTokens) == 1000.0 && Get(p, TopP) == 0.9
    ensures Get(p, FrequencyPenalty) == 0.0 && Get(p, PresencePenalty) == 0.0
  {
    Parameters(0.7, 1000.0, 0.9, 0.0, 0.0)
  }

  /** `{...prev, [param]: value}`: the named field becomes `v` verbatim, with
      no clamping, and the other four keep their values. */
  function WithParameter(p: Parameters, n: ParamName, v: real): (r: Parameters)
    ensures Get(r, n) == v
    ensures forall o: ParamName :: o != n ==> Get(r, o) == Get(p, o)
  {
    match n
    case Temperature => p.(temperature := v)
    case MaxTokens => p.(maxTokens := v)
    case TopP => p.(topP := v)
    case FrequencyPenalty => p.(frequencyPenalty := v)
    case PresencePenalty => p.(presencePenalty := v)
  }

  /** Two records that agree on every field are the same record. */
  lemma FieldsDetermineRecord(p: Parameters, q: Parameters)
    requires forall n: ParamName :: Get(p, n) == Get(q, n)
    ensures p == q
  {
    assert Get(p, Temperature) == Get(q, Temperature);
    assert Get(p, MaxTokens) == Get(q, MaxTokens);
    assert Get(p, TopP) == Get(q, TopP);
    assert Get(p, FrequencyPenalty) == Get(q, FrequencyPenalty);
    assert Get(p, PresencePenalty) == Get(q, PresencePenalty);
  }

  /** Writing a field its current value changes nothing. */
  lemma WriteCurrentValue(p: Parameters, n: ParamName)
    ensures WithParameter(p, n, Get(p, n)) == p
  {
    FieldsDetermineRecord(WithParameter(p, n, Get(p, n)), p);
  }

  /** Of two writes to the same field the later one wins. */
  lemma LaterWriteWins(p: Parameters, n: ParamName, v: real, w: real)
    ensures WithParameter(WithParameter(p, n, v), n, w) == WithParameter(p, n, w)
  {
    FieldsDetermineRecord(WithParameter(WithParameter(p, n, v), n, w), WithParameter(p, n, w));
  }

  /** Writes to different fields commute. */
  lemma WritesCommute(p: Parameters, n: ParamName, v: real, o: ParamName, w: real)
    requires n != o
    ensures WithParameter(WithParameter(p, n, v), o, w) == WithParameter(WithParameter(p, o, w), n, v)
  {
    FieldsDetermineRecord(WithParameter(WithParameter(p, n, v), o, w), WithParameter(WithParameter(p, o, w), n, v));
  }

  /** A range input: the field it writes and its `min` and `max` attributes. */
  datatype Slider = Slider(name: ParamName, min: real, max: real)

  /** The range input offered for a field, given the selected model: its
      `min` and `max` attributes. Only the max-tokens ceiling depends on the
      model. */
  function SliderFor(n: ParamName, m: AIModel): (s: Slider)
    ensures s.name == n
    ensures n == Temperature ==> s.min == 0.0 && s.max == 2.0
    ensures n == MaxTokens ==> s.min == 100.0 && s.max == m.maxTokens as real
    ensures n == TopP ==> s.min == 0.0 && s.max == 1.0
    ensures n == FrequencyPenalty || n == PresencePenalty ==> s.min == -2.0 && s.max == 2.0
  {
    match n
    case Temperature => Slider(n, 0.0, 2.0)
    case MaxTokens => Slider(n, 100.0, m.maxTokens as real)
    case TopP => Slider(n, 0.0, 1.0)
    case FrequencyPenalty => Slider(n, -2.0, 2.0)
    case PresencePenalty => Slider(n, -2.0, 2.0)
  }

  /** The sliders the panel renders: none without a selected model, otherwise
      one per field, in the order temperature, max tokens, top-p, frequency
      penalty, presence penalty. */
  function Controls(selected: Option<AIModel>): (cs: seq<Slider>)
    ensures selected.None? ==> cs == []
    ensures selected.Some? ==> |cs| == |Fields|
    ensures forall i | 0 <= i < |cs| :: cs[i].name == Fields[i]
    ensures selected.Some? ==> forall i | 0 <= i < |cs| :: cs[i] == SliderFor(Fields[i], selected.value)
  {
    match selected
    case None => []
    case Some(m) => seq(|Fields|, i requires 0 <= i < |Fields| => SliderFor(Fields[i], m))
  }

  /** A value lies within the range the slider for field `n` offers under
      model `m`. */
  predicate WithinSliderBounds(n: ParamName, v: real, m: AIModel)
  {
    SliderFor(n, m).min <= v <= SliderFor(n, m).max
  }

  /** Any value a rendered slider can deliver lies within the range offered
      for its field under the selected model. */
  lemma SliderValuesInBounds(m: AIModel, i: nat, v: real)
    requires i < |Controls(Some(m))|
    requires Controls(Some(m))[i].min <= v <= Controls(Some(m))[i].max
    ensures WithinSliderBounds(Fields[i], v, m)
  {
    assert Controls(Some(m))[i] == SliderFor(Fields[i], m);
  }

  /** The panel bound to a session store. */
  class Panel {
    const session: SessionStore
    var parameters: Parameters

    constructor (session: SessionStore)
      ensures this.session == session
      ensures parameters == Defaults()
    {
      this.session := session;
      parameters := Defaults();
    }

    /** `handleParameterChange`. */
    method HandleParameterChange(n: ParamName, v: real)
      modifies this`parameters
      ensures parameters == WithParameter(old(parameters), n, v)
    {
      parameters := WithParameter(parameters, n, v);
    }

    /** A slider's `onChange`: only a rendered slider can fire, and the browser
        delivers a value between its `min` and `max`. The bound holds for this
        write; a later model switch may leave max tokens above the new
        ceiling. */
    method OnSliderInput(i: nat, v: real)
      requires i < |Controls(session.selectedModel)|
      requires Controls(session.selectedModel)[i].min <= v <= Controls(session.selectedModel)[i].max
      modifies this`parameters
      ensures parameters == WithParameter(old(parameters), Fields[i], v)
      ensures WithinSliderBounds(Fields[i], Get(parameters, Fields[i]), session.selectedModel.value)
    {
      SliderValuesInBounds(session.selectedModel.value, i, v);
      HandleParameterChange(Fields[i], v);
    }

    /** `resetToDefaults`: the default record whatever the prior one. Its
        button is rendered only when a model is selected. */
    method ResetToDefaults()
      requires session.selectedModel.Some?
      modifies this`parameters
      ensures parameters == Defaults()
    {
      parameters := Defaults();
    }
  }

  /** Switching the model leaves every parameter as it was. */
  method SwitchModel(panel: Panel, m: Option<AIModel>)
    modifies panel.session`selectedModel
    ensures panel.session.selectedModel == m
    ensures panel.parameters == old(panel.parameters)
  {
    panel.session.SetSelectedModel(m);
  }

  /** Max tokens can end above the selected model's ceiling: choose a value
      under a model whose ceiling allows it, then switch to a model whose
      ceiling is lower than that value. */
  method CeilingCanBeExceeded(high: AIModel, low: AIModel, v: real) returns (maxTokens: real, ceiling: int)
    requires 100.0 <= v <= high.maxTokens as real && low.maxTokens as real < v
    ensures maxTokens == v && ceiling == low.maxTokens
    ensures maxTokens > ceiling as real
  {
    var store := new SessionStore();
    store.SetSelectedModel(Some(high));
    var panel := new Panel(store);
    panel.OnSliderInput(1, v);
    SwitchModel(panel, Some(low));
    maxTokens, ceiling := panel.parameters.maxTokens, store.selectedModel.value.maxTokens;
  }

  /** The same run on the seeded store: after seeding, GPT-4 is selected; 8000
      tokens are written through its slider; switching to the custom model
      leaves 8000 above that model's ceiling of 2048. */
  method SeededCeilingCanBeExceeded() returns (maxTokens: real, ceiling: int)
    ensures maxTokens == 8000.0 && ceiling == 2048
    ensures maxTokens > ceiling as real
  {
    var store := new SessionStore();
    store.Seed();
    var panel := new Panel(store);
    panel.OnSliderInput(1, 8000.0);
    SwitchModel(panel, Some(store.models[3]));
    maxTokens, ceiling := panel.parameters.maxTokens, store.selectedModel.value.maxTokens;
  }
}
