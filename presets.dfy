/** The immutable preset table of the player. */
module Presets {

  /** One preset: the left and right tone frequencies and their difference. */
  datatype Tones = Tones(left: real, right: real, diff: real)

  const Focus10: string := "Focus 10 (Mind Awake, Body Asleep)"
  const Focus12: string := "Focus 12 (Expanded Awareness)"
  const DeepRelaxation: string := "Deep Relaxation"
  const EnhancedCreativity: string := "Enhanced Creativity"

  const Table: map<string, Tones> := map[
    Focus10 := Tones(200.0, 208.0, 8.0),
    Focus12 := Tones(300.0, 310.0, 10.0),
    DeepRelaxation := Tones(250.0, 254.0, 4.0),
    EnhancedCreativity := Tones(280.0, 288.0, 8.0)
  ]

  /** The table holds exactly the four named presets, and "" (the Custom option) is not one of them. */
  lemma TableKeys()
    ensures Table.Keys == {Focus10, Focus12, DeepRelaxation, EnhancedCreativity}
    ensures "" !in Table
  {
  }

  /** Every preset's recorded diff is the beat its two tones produce. */
  lemma DiffIsBeat(name: string)
    requires name in Table
    ensures Table[name].diff == Table[name].right - Table[name].left
    ensures Table[name].left < Table[name].right
  {
  }
}
