/**
 * The fixed rotation of personas that take turns, and the choice of the
 * persona for a given turn number.
 */
module Rotation {

  /** A persona: the name shown to the viewer, the provider's model id, its system prompt. */
  datatype Persona = Persona(name: string, model: string, system: string)

  /** The rotation, in order. The names use a non-breaking hyphen (U+2011). */
  const MODELS: seq<Persona> := [
    Persona("GPT\U{2011}3.5", "gpt-3.5-turbo", "You are GPT\U{2011}3.5..."),
    Persona("GPT\U{2011}4", "gpt-4", "You are GPT\U{2011}4..."),
    Persona("GPT\U{2011}4\U{2011}Turbo", "gpt-4-turbo", "You are GPT\U{2011}4\U{2011}Turbo...")
  ]

  /** The persona whose turn it is: the rotation indexed modulo its length, always in bounds. */
  function PersonaFor(turn: nat): (p: Persona)
    ensures p in MODELS
  {
    MODELS[turn % |MODELS|]
  }

  /** The rotation is cyclic: a full round later, the same persona speaks again. */
  lemma RotationIsCyclic(turn: nat)
    ensures PersonaFor(turn + |MODELS|) == PersonaFor(turn)
  {
    assert (turn + |MODELS|) % |MODELS| == turn % |MODELS|;
  }

  /** No persona takes two turns in a row. */
  lemma NoPersonaTwiceInARow(turn: nat)
    ensures PersonaFor(turn + 1) != PersonaFor(turn)
  {
    var i, j := turn % |MODELS|, (turn + 1) % |MODELS|;
    assert j == if i == |MODELS| - 1 then 0 else i + 1;
    assert MODELS[i].model != MODELS[j].model;
  }

  /** Every persona gets a turn within any |MODELS| consecutive turns. */
  lemma EveryPersonaWithinARound(turn: nat, p: Persona) returns (k: nat)
    requires p in MODELS
    ensures k < |MODELS| && PersonaFor(turn + k) == p
  {
    var n := |MODELS|;
    var i :| 0 <= i < n && MODELS[i] == p;
    k := (i - turn % n + n) % n;
    assert (turn + k) % n == i;
  }
}
