/** The session's mirrored dialogue: host events rewrite it, guests select from it. */
module Dialogue {
  import opened Slots

  const MAX_CHOICES: nat := 12
  const MAX_TEXT: nat := 255
  const CLOSE_ENDED: nat := 0

  datatype Choice = Choice(id: nat, enabled: bool, text: string)

  datatype State = State(
    active: bool, dialogueId: nat, npc: nat, speaker: nat, line: string, choices: seq<Choice>,
    lastChoice: nat, lastBy: nat, closeReason: nat)

  const NO_DIALOGUE := State(false, 0, 0, 0, "", [], 0, 0, 0)

  datatype Verdict = Accepted | NoActiveDialogue | DialogueMismatch | ChoiceNotFound | ChoiceDisabled

  function Clip(text: string): string {
    if |text| <= MAX_TEXT then text else text[..MAX_TEXT]
  }

  function ClipChoices(choices: seq<Choice>): (r: seq<Choice>)
    ensures |r| <= MAX_CHOICES
  {
    var n := if |choices| < MAX_CHOICES then |choices| else MAX_CHOICES;
    seq(n, i requires 0 <= i < n => choices[i].(text := Clip(choices[i].text)))
  }

  function Opened(dialogueId: nat, npc: nat, speaker: nat): State {
    NO_DIALOGUE.(active := true, dialogueId := dialogueId, npc := npc, speaker := speaker)
  }

  function Spoken(d: State, dialogueId: nat, speaker: nat, text: string): State {
    d.(active := true, dialogueId := dialogueId, speaker := speaker, line := Clip(text))
  }

  /** Publishing choices does not activate the dialogue. */
  function Published(d: State, dialogueId: nat, choices: seq<Choice>): State {
    d.(dialogueId := dialogueId, choices := ClipChoices(choices))
  }

  function Closed(d: State, dialogueId: nat, reason: nat): State {
    if d.dialogueId == dialogueId then d.(active := false, closeReason := reason, choices := [], line := "") else d
  }

  /** The slot of the first choice with this id, or the number of choices. */
  function ChoiceIndex(choices: seq<Choice>, choiceId: nat): (r: nat)
    ensures r <= |choices|
    ensures r < |choices| ==> choices[r].id == choiceId
  {
    First(choices, (c: Choice) => c.id == choiceId)
  }

  /** `dsp_validate_selection`. */
  function Validate(d: State, dialogueId: nat, choiceId: nat): Verdict {
    if !d.active then NoActiveDialogue
    else if d.dialogueId != dialogueId then DialogueMismatch
    else
      var i := ChoiceIndex(d.choices, choiceId);
      if i == |d.choices| then ChoiceNotFound
      else if d.choices[i].enabled then Accepted else ChoiceDisabled
  }

  /** `dsp_apply_selection`: what an accepted selection records. */
  function Recorded(d: State, player: nat, choiceId: nat): State {
    d.(lastChoice := choiceId, lastBy := player)
  }

  /** `dpp_apply_selection`: the text of the chosen line, if the second search finds it. */
  function ChosenText(d: State, choiceId: nat): Option<string> {
    var i := ChoiceIndex(d.choices, choiceId);
    if i == |d.choices| then None else Some(d.choices[i].text)
  }

  /** `hem_apply_guest_dialogue_select`: whether the selection is applied, and the dialogue after it. */
  function GuestSelect(d: State, player: nat, dialogueId: nat, choiceId: nat): (bool, State) {
    if Validate(d, dialogueId, choiceId) != Accepted then (false, d)
    else
      var r := Recorded(d, player, choiceId);
      var text := ChosenText(r, choiceId);
      if text.None? then (false, r)
      else
        var spoken := Clip("Selected: " + text.value);
        var advanced := r.(line := spoken, choices := []);
        (true, Closed(Spoken(advanced, r.dialogueId, r.speaker, spoken), r.dialogueId, CLOSE_ENDED))
  }

  datatype Event =
    | Open(dialogueId: nat, npc: nat, speaker: nat)
    | Line(lineOf: nat, speakerId: nat, text: string)
    | Choices(choicesOf: nat, choices: seq<Choice>)
    | Close(closeOf: nat, reason: nat)
    | Select(player: nat, selectOf: nat, choiceId: nat)

  function Step(d: State, e: Event): State {
    match e
    case Open(id, npc, speaker) => Opened(id, npc, speaker)
    case Line(id, speaker, text) => Spoken(d, id, speaker, text)
    case Choices(id, choices) => Published(d, id, choices)
    case Close(id, reason) => Closed(d, id, reason)
    case Select(player, id, choice) => GuestSelect(d, player, id, choice).1
  }

  function Run(d: State, events: seq<Event>): State {
    if events == [] then d else Step(Run(d, events[..|events| - 1]), events[|events| - 1])
  }

  predicate Applies(d: State, e: Event) {
    e.Select? && GuestSelect(d, e.player, e.selectOf, e.choiceId).0
  }

  /** Guest selections applied over a run that starts with no dialogue. */
  function Applications(events: seq<Event>): nat {
    if events == [] then 0
    else
      var before := events[..|events| - 1];
      Applications(before) + (if Applies(Run(NO_DIALOGUE, before), events[|events| - 1]) then 1 else 0)
  }

  /** Non-empty choice lists the host published over a run. */
  function ListsPublished(events: seq<Event>): nat {
    if events == [] then 0
    else
      var e := events[|events| - 1];
      ListsPublished(events[..|events| - 1]) + (if e.Choices? && e.choices != [] then 1 else 0)
  }

  /** The "choice text missing" rejection is unreachable: a selection is applied exactly when it validates. */
  lemma SelectAppliesIffValid(d: State, player: nat, dialogueId: nat, choiceId: nat)
    ensures GuestSelect(d, player, dialogueId, choiceId).0 <==> Validate(d, dialogueId, choiceId) == Accepted
    ensures !GuestSelect(d, player, dialogueId, choiceId).0 ==> GuestSelect(d, player, dialogueId, choiceId).1 == d
  {
    var r := Recorded(d, player, choiceId);
    assert r.choices == d.choices;
  }

  /** An applied selection leaves an inactive dialogue without choices that remembers who chose what;
      a second selection before the next list is rejected, even if the host speaks another line first. */
  lemma AppliedSelectionEndsDialogue(d: State, player: nat, dialogueId: nat, choiceId: nat, player2: nat, id2: nat,
      choice2: nat, text: string)
    requires GuestSelect(d, player, dialogueId, choiceId).0
    ensures var r := GuestSelect(d, player, dialogueId, choiceId).1;
            && r == d.(active := false, closeReason := CLOSE_ENDED, choices := [], line := "",
                       lastChoice := choiceId, lastBy := player)
            && !GuestSelect(r, player2, id2, choice2).0
            && !GuestSelect(Spoken(r, id2, r.speaker, text), player2, id2, choice2).0
  {
  }

  /** Over every interleaving, each applied selection used up a choice list of its own. */
  lemma {:induction false} SelectionsNeverExceedLists(events: seq<Event>)
    ensures Applications(events) + (if Run(NO_DIALOGUE, events).choices != [] then 1 else 0) <= ListsPublished(events)
  {
    if events != [] {
      var before := events[..|events| - 1];
      var e := events[|events| - 1];
      var d := Run(NO_DIALOGUE, before);
      SelectionsNeverExceedLists(before);
      if Applies(d, e) {
        assert ChoiceIndex(d.choices, e.choiceId) < |d.choices|;
        AppliedSelectionEndsDialogue(d, e.player, e.selectOf, e.choiceId, 0, 0, 0, "");
      } else if e.Select? {
        SelectAppliesIffValid(d, e.player, e.selectOf, e.choiceId);
      }
    }
  }

  /** The session's dialogue record as the service updates it in place. */
  class Mirror {
    var state: State

    constructor ()
      ensures state == NO_DIALOGUE
    {
      state := NO_DIALOGUE;
    }

    method OnOpen(dialogueId: nat, npc: nat, speaker: nat)
      modifies this
      ensures state == Opened(dialogueId, npc, speaker)
    {
      state := NO_DIALOGUE;
      state := state.(active := true, dialogueId := dialogueId, npc := npc, speaker := speaker);
    }

    method OnLine(dialogueId: nat, speaker: nat, text: string)
      modifies this
      ensures state == Spoken(old(state), dialogueId, speaker, text)
    {
      state := state.(active := true, dialogueId := dialogueId, speaker := speaker, line := Clip(text));
    }

    /** Copies at most twelve choices, one by one. */
    method OnChoices(dialogueId: nat, choices: seq<Choice>)
      modifies this
      ensures state == Published(old(state), dialogueId, choices)
    {
      var count := if |choices| < MAX_CHOICES then |choices| else MAX_CHOICES;
      var copied: seq<Choice> := [];
      while |copied| < count
        invariant |copied| <= count
        invariant copied == ClipChoices(choices)[..|copied|]
      {
        copied := copied + [choices[|copied|].(text := Clip(choices[|copied|].text))];
      }
      state := state.(dialogueId := dialogueId, choices := copied);
    }

    method OnClose(dialogueId: nat, reason: nat)
      modifies this
      ensures state == Closed(old(state), dialogueId, reason)
    {
      if state.dialogueId == dialogueId {
        state := state.(active := false, closeReason := reason, choices := [], line := "");
      }
    }

    method ValidateSelection(dialogueId: nat, choiceId: nat) returns (v: Verdict)
      ensures v == Validate(state, dialogueId, choiceId)
    {
      if !state.active { return NoActiveDialogue; }
      if state.dialogueId != dialogueId { return DialogueMismatch; }
      var i := FirstMatch(state.choices, (c: Choice) => c.id == choiceId);
      if i == |state.choices| { return ChoiceNotFound; }
      v := if state.choices[i].enabled then Accepted else ChoiceDisabled;
    }

    method OnGuestSelect(player: nat, dialogueId: nat, choiceId: nat) returns (ok: bool)
      modifies this
      ensures (ok, state) == GuestSelect(old(state), player, dialogueId, choiceId)
      ensures ok <==> Validate(old(state), dialogueId, choiceId) == Accepted
    {
      SelectAppliesIffValid(state, player, dialogueId, choiceId);
      var v := ValidateSelection(dialogueId, choiceId);
      if v != Accepted { return false; }
      state := state.(lastChoice := choiceId, lastBy := player);
      var i := FirstMatch(state.choices, (c: Choice) => c.id == choiceId);
      if i == |state.choices| { return false; }
      var spoken := Clip("Selected: " + state.choices[i].text);
      var id := state.dialogueId;
      state := state.(line := spoken, choices := []);
      OnLine(id, state.speaker, spoken);
      OnClose(id, CLOSE_ENDED);
      ok := true;
    }
  }
}
