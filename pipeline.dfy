/**
 * The selection-pipeline builder: the stages of a hiring process, each
 * mandatory or optional, each with a weight in the final score; the recruiter
 * switches optional stages on and off and moves weight sliders, and a
 * summary shows the total weight of the enabled stages against 100%.
 * Weights are whole percentages (the sliders move in steps of 5%).
 */
module Pipeline {
  import opened Wrappers

  /** A stage as the pipeline file describes it. */
  datatype AvailableStage = AvailableStage(id: string, nome: string, obrigatorio: bool, pesoScore: int, duration: int)

  /** A stage on screen: the description plus whether it is switched on. */
  datatype Stage = Stage(id: string, nome: string, obrigatorio: bool, pesoScore: int, duration: int, enabled: bool)

  const CouldNotLoad := "error.couldNotLoad"

  /** The position a slider can take: 0 to 100 in steps of 5. */
  type SliderValue = v: int | 0 <= v <= 100 && v % 5 == 0

  /** The stage with its initial switch: on when mandatory or weighted. */
  function Configure(s: AvailableStage): Stage {
    Stage(s.id, s.nome, s.obrigatorio, s.pesoScore, s.duration, s.obrigatorio || s.pesoScore > 0)
  }

  /** The stages as first shown, one per stage of the file, in order. */
  function ConfigureStages(available: seq<AvailableStage>): (stages: seq<Stage>)
    ensures |stages| == |available|
    ensures forall i :: 0 <= i < |available| ==>
              stages[i].id == available[i].id && stages[i].obrigatorio == available[i].obrigatorio
              && stages[i].pesoScore == available[i].pesoScore
              && (stages[i].enabled <==> available[i].obrigatorio || available[i].pesoScore > 0)
  {
    seq(|available|, i requires 0 <= i < |available| => Configure(available[i]))
  }

  /** `handleToggleStage`: flips the switch of every stage with that id. */
  function ToggleStage(stages: seq<Stage>, id: string): (r: seq<Stage>)
    ensures |r| == |stages|
    ensures forall i :: 0 <= i < |stages| ==>
              r[i] == if stages[i].id == id then stages[i].(enabled := !stages[i].enabled) else stages[i]
  {
    seq(|stages|, i requires 0 <= i < |stages| =>
      if stages[i].id == id then stages[i].(enabled := !stages[i].enabled) else stages[i])
  }

  /** `handleWeightChange`: the new weight on every stage with that id. */
  function SetWeight(stages: seq<Stage>, id: string, weight: int): (r: seq<Stage>)
    ensures |r| == |stages|
    ensures forall i :: 0 <= i < |stages| ==>
              r[i] == if stages[i].id == id then stages[i].(pesoScore := weight) else stages[i]
  {
    seq(|stages|, i requires 0 <= i < |stages| =>
      if stages[i].id == id then stages[i].(pesoScore := weight) else stages[i])
  }

  /** Toggling the same stage twice restores the list. */
  lemma ToggleTwice(stages: seq<Stage>, id: string)
    ensures ToggleStage(ToggleStage(stages, id), id) == stages
  {
  }

  /** Setting a weight and then the old weight back restores a stage list with a single stage of that id. */
  lemma SetWeightUndo(stages: seq<Stage>, k: nat, weight: int)
    requires k < |stages| && UniqueIds(stages)
    ensures SetWeight(SetWeight(stages, stages[k].id, weight), stages[k].id, stages[k].pesoScore) == stages
  {
  }

  predicate UniqueIds(stages: seq<Stage>) {
    forall i, j :: 0 <= i < j < |stages| ==> stages[i].id != stages[j].id
  }

  /** What a stage adds to the total: its weight when it is enabled and positive. */
  function Contribution(s: Stage): (c: int)
    ensures c >= 0
    ensures c > 0 <==> s.enabled && s.pesoScore > 0
  {
    if s.enabled && s.pesoScore > 0 then s.pesoScore else 0
  }

  /** The `reduce` of `totalWeight`. */
  function TotalWeight(stages: seq<Stage>): (total: int)
    ensures total >= 0
    ensures total == 0 <==> forall i :: 0 <= i < |stages| ==> Contribution(stages[i]) == 0
  {
    if stages == [] then 0
    else
      var rest := TotalWeight(stages[..|stages| - 1]);
      assert forall i :: 0 <= i < |stages| - 1 ==> stages[..|stages| - 1][i] == stages[i];
      rest + Contribution(stages[|stages| - 1])
  }

  /** Replacing one stage changes the total by the difference of the two contributions. */
  lemma {:induction false} TotalWeightUpdate(stages: seq<Stage>, k: nat, s: Stage)
    requires k < |stages|
    ensures TotalWeight(stages[k := s]) == TotalWeight(stages) - Contribution(stages[k]) + Contribution(s)
  {
    var n := |stages| - 1;
    var updated := stages[k := s];
    if k < n {
      assert updated[..n] == stages[..n][k := s] && updated[n] == stages[n];
      TotalWeightUpdate(stages[..n], k, s);
      assert stages[..n][k] == stages[k];
    } else {
      assert updated[..n] == stages[..n] && updated[n] == s;
    }
  }

  /**
   * Toggling a stage with a unique id adds its positive weight to the total
   * or takes it away.
   */
  lemma ToggleChangesTotal(stages: seq<Stage>, k: nat)
    requires k < |stages| && UniqueIds(stages)
    ensures var w := if stages[k].pesoScore > 0 then stages[k].pesoScore else 0;
            TotalWeight(ToggleStage(stages, stages[k].id))
            == if stages[k].enabled then TotalWeight(stages) - w else TotalWeight(stages) + w
  {
    var toggled := stages[k].(enabled := !stages[k].enabled);
    assert ToggleStage(stages, stages[k].id) == stages[k := toggled];
    TotalWeightUpdate(stages, k, toggled);
  }

  /** `Math.round(totalWeight * 100) !== 100`: the summary turns red and warns. */
  predicate ShowWarning(total: int) {
    total != 100
  }

  /** `Math.min(totalWeight * 100, 100)`: the width of the summary bar. */
  function BarWidth(total: int): (w: int)
    ensures w <= 100
    ensures total >= 0 ==> w >= 0
    ensures w == total <==> total <= 100
  {
    if total < 100 then total else 100
  }

  /**
   * The summary is calm only at exactly 100%, where the bar is full; above
   * 100% it warns and the bar stays full.
   */
  lemma WarningAndBar(total: int)
    ensures !ShowWarning(total) ==> BarWidth(total) == 100
    ensures total > 100 ==> ShowWarning(total) && BarWidth(total) == 100
    ensures 0 <= total < 100 ==> ShowWarning(total) && BarWidth(total) == total
  {
  }

  /** From a total of exactly 100%, switching a weighted stage on or off brings the warning back. */
  lemma ToggleFromFullWarns(stages: seq<Stage>, k: nat)
    requires k < |stages| && UniqueIds(stages) && stages[k].pesoScore > 0
    requires TotalWeight(stages) == 100
    ensures ShowWarning(TotalWeight(ToggleStage(stages, stages[k].id)))
  {
    ToggleChangesTotal(stages, k);
  }

  /** Every mandatory stage is switched on. */
  predicate MandatoryEnabled(stages: seq<Stage>) {
    forall i :: 0 <= i < |stages| && stages[i].obrigatorio ==> stages[i].enabled
  }

  /** The stages start with every mandatory stage switched on. */
  lemma ConfigureEnablesMandatory(available: seq<AvailableStage>)
    ensures MandatoryEnabled(ConfigureStages(available))
  {
  }

  /** What the recruiter can do on the screen. */
  datatype Action = Toggle(id: string) | MoveSlider(id: string, value: SliderValue)

  /**
   * What the screen lets through: a stage's switch is disabled when the
   * stage is mandatory; its slider is rendered only while its weight is
   * positive, and disabled while the stage is switched off.
   */
  predicate Allowed(stages: seq<Stage>, a: Action) {
    match a
    case Toggle(id) => exists k :: 0 <= k < |stages| && stages[k].id == id && !stages[k].obrigatorio
    case MoveSlider(id, _) => exists k :: 0 <= k < |stages| && stages[k].id == id && stages[k].pesoScore > 0 && stages[k].enabled
  }

  function Apply(stages: seq<Stage>, a: Action): seq<Stage> {
    match a
    case Toggle(id) => ToggleStage(stages, id)
    case MoveSlider(id, value) => SetWeight(stages, id, value)
  }

  /**
   * With distinct stage ids, no action the screen allows switches a mandatory
   * stage off. The toggle handler itself would: the protection is the
   * disabled checkbox.
   */
  lemma AllowedKeepsMandatoryEnabled(stages: seq<Stage>, a: Action)
    requires UniqueIds(stages) && MandatoryEnabled(stages) && Allowed(stages, a)
    ensures MandatoryEnabled(Apply(stages, a))
  {
  }

  /** The toggle handler on its own does switch a mandatory stage off. */
  lemma ToggleHandlerIgnoresMandatory(s: Stage)
    requires s.obrigatorio && s.enabled
    ensures !MandatoryEnabled(ToggleStage([s], s.id))
  {
    assert ToggleStage([s], s.id)[0].obrigatorio;
  }

  /**
   * With distinct stage ids, a stage whose weight has reached 0 keeps it: its
   * slider is no longer rendered.
   */
  lemma AllowedKeepsZeroWeight(stages: seq<Stage>, a: Action, k: nat)
    requires UniqueIds(stages) && Allowed(stages, a) && k < |stages| && stages[k].pesoScore == 0
    ensures Apply(stages, a)[k].pesoScore == 0
  {
  }

  /** Every action keeps the ids in place. */
  lemma ApplyKeepsIds(stages: seq<Stage>, a: Action)
    ensures |Apply(stages, a)| == |stages|
    ensures forall i :: 0 <= i < |stages| ==> Apply(stages, a)[i].id == stages[i].id
  {
  }

  /** Three enabled stages weighted 50%, 30% and 25% add up to 105%: the warning shows and the bar is full. */
  lemma OverweightExample(a: Stage, b: Stage, c: Stage)
    requires a.enabled && b.enabled && c.enabled && a.pesoScore == 50 && b.pesoScore == 30 && c.pesoScore == 25
    ensures TotalWeight([a, b, c]) == 105 && ShowWarning(TotalWeight([a, b, c])) && BarWidth(TotalWeight([a, b, c])) == 100
  {
    var stages := [a, b, c];
    assert stages[..2][..1][..0] == [];
    assert stages[..2][..1] == [a];
    assert stages[..2] == [a, b];
    assert TotalWeight([a]) == 50;
    assert TotalWeight([a, b]) == 80;
  }

  /** The pipeline builder screen. */
  class PipelineBuilder {
    var stages: seq<Stage>
    var isLoading: bool
    var error: Option<string>

    constructor ()
      ensures stages == [] && isLoading && error == None
    {
      stages, isLoading, error := [], true, None;
    }

    /** The pipeline file arrived (`Some`) or could not be read (`None`). */
    method Load(loaded: Option<seq<AvailableStage>>)
      modifies this
      ensures !isLoading
      ensures loaded.Some? ==> stages == ConfigureStages(loaded.value) && error == old(error)
      ensures loaded.None? ==> stages == old(stages) && error == Some(CouldNotLoad)
      ensures loaded.Some? ==> MandatoryEnabled(stages)
    {
      if loaded.Some? {
        stages := ConfigureStages(loaded.value);
        ConfigureEnablesMandatory(loaded.value);
      } else {
        error := Some(CouldNotLoad);
      }
      isLoading := false;
    }

    method HandleToggleStage(id: string)
      modifies this
      ensures stages == ToggleStage(old(stages), id)
      ensures isLoading == old(isLoading) && error == old(error)
    {
      stages := ToggleStage(stages, id);
    }

    /** `parseInt(value, 10) / 100`: the slider's position becomes the weight. */
    method HandleWeightChange(id: string, value: SliderValue)
      modifies this
      ensures stages == SetWeight(old(stages), id, value)
      ensures isLoading == old(isLoading) && error == old(error)
    {
      stages := SetWeight(stages, id, value);
    }
  }
}
