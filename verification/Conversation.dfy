/** The mirrored dialogue as a function of its history: which events of a run decide what is shown and offered now. */
module Conversation {
  import opened Slots
  import opened Dialogue

  /** The dialogue after the first `n` events of a run that starts with none. */
  function At(es: seq<Event>, n: nat): State
    requires n <= |es|
  {
    Run(NO_DIALOGUE, es[..n])
  }

  function Now(es: seq<Event>): State { Run(NO_DIALOGUE, es) }

  /** The dialogue the event names, if it makes that one the current dialogue. */
  function Names(e: Event): Option<nat> {
    match e
    case Open(id, _, _) => Some(id)
    case Line(id, _, _) => Some(id)
    case Choices(id, _) => Some(id)
    case _ => None
  }

  /** The guest's choice is on offer: the dialogue is active, it is the current one, and the first choice with this id
      is enabled. */
  ghost predicate OnOffer(d: State, id: nat, choice: nat) {
    && d.active && d.dialogueId == id
    && exists i :: 0 <= i < |d.choices| && d.choices[i].id == choice && d.choices[i].enabled
                   && forall j :: 0 <= j < i ==> d.choices[j].id != choice
  }

  /** The event ends the current dialogue: the host closes it, or a guest takes an offer. */
  ghost predicate Ends(d: State, e: Event) {
    || (e.Close? && e.closeOf == d.dialogueId)
    || (e.Select? && OnOffer(d, e.selectOf, e.choiceId))
  }

  ghost predicate EndsAt(es: seq<Event>, j: nat)
    requires j < |es|
  {
    Ends(At(es, j), es[j])
  }

  // ---- selections ------------------------------------------------------------------------------------------------

  /** A selection is applied if and only if it is on offer; the verdict names the first thing that is wrong. */
  lemma SelectedIffOffered(d: State, player: nat, id: nat, choice: nat)
    ensures GuestSelect(d, player, id, choice).0 <==> OnOffer(d, id, choice)
    ensures var v := Validate(d, id, choice);
            && (v == Accepted <==> OnOffer(d, id, choice))
            && (v == NoActiveDialogue <==> !d.active)
            && (v == DialogueMismatch <==> d.active && d.dialogueId != id)
            && (v == ChoiceNotFound <==>
                  d.active && d.dialogueId == id && forall i :: 0 <= i < |d.choices| ==> d.choices[i].id != choice)
  {
    var i := ChoiceIndex(d.choices, choice);
    SelectAppliesIffValid(d, player, id, choice);
    if i < |d.choices| && d.choices[i].enabled && d.active && d.dialogueId == id { assert OnOffer(d, id, choice); }
  }

  // ---- one event ---------------------------------------------------------------------------------------------------

  lemma OneMore(es: seq<Event>)
    requires es != []
    ensures Now(es) == Step(At(es, |es| - 1), es[|es| - 1])
    ensures Now(es[..|es| - 1]) == At(es, |es| - 1)
  {
  }

  lemma Earlier(es: seq<Event>, j: nat)
    requires es != [] && j < |es| - 1
    ensures es[..|es| - 1][j] == es[j] && At(es[..|es| - 1], j) == At(es, j)
    ensures EndsAt(es[..|es| - 1], j) <==> EndsAt(es, j)
  {
    assert es[..|es| - 1][..j] == es[..j];
  }

  /** What any event does to the fields it does not decide. */
  lemma StepFrame(d: State, e: Event)
    ensures var r := Step(d, e);
            && r.dialogueId == (match Names(e) case Some(id) => id case None => d.dialogueId)
            && (r.active <==> e.Open? || e.Line? || (d.active && !Ends(d, e)))
            && (!e.Choices? && !e.Open? && !Ends(d, e) ==> r.choices == d.choices)
            && (!e.Line? && !e.Open? && !Ends(d, e) ==> r.line == d.line && r.speaker == d.speaker)
            && (!e.Open? && !Ends(d, e) ==>
                  r.lastChoice == d.lastChoice && r.lastBy == d.lastBy && r.closeReason == d.closeReason)
            && (Ends(d, e) || e.Open? ==> r.choices == [] && r.line == "")
  {
    if e.Select? { SelectedIffOffered(d, e.player, e.selectOf, e.choiceId); }
  }

  // ---- which dialogue, and whether it is active --------------------------------------------------------------------

  /** The current dialogue is the one last named. */
  lemma {:induction false} LastNamed(es: seq<Event>, k: nat)
    requires k < |es| && Names(es[k]).Some? && forall j :: k < j < |es| ==> Names(es[j]).None?
    ensures Now(es).dialogueId == Names(es[k]).value
  {
    hide Run, Step;
    OneMore(es);
    StepFrame(At(es, |es| - 1), es[|es| - 1]);
    if k < |es| - 1 {
      Earlier(es, k);
      LastNamed(es[..|es| - 1], k);
    }
  }

  ghost predicate Speaking(es: seq<Event>, k: nat)
    requires k < |es|
  {
    (es[k].Open? || es[k].Line?) && forall j :: k < j < |es| ==> !EndsAt(es, j)
  }

  /** The dialogue is active if and only if it was opened or a line was spoken, and nothing has ended it since. */
  lemma {:induction false} ActiveIff(es: seq<Event>)
    ensures Now(es).active <==> exists k :: 0 <= k < |es| && Speaking(es, k)
  {
    hide Run, Step, Ends;
    if es == [] {
      NothingYet();
    } else {
      var n := |es| - 1;
      OneMore(es);
      StepFrame(At(es, n), es[n]);
      ActiveIff(es[..n]);
      forall j | 0 <= j < n ensures es[..n][j] == es[j] && (EndsAt(es[..n], j) <==> EndsAt(es, j)) { Earlier(es, j); }
      if k :| 0 <= k < |es| && Speaking(es, k) {
        if k < n {
          assert Speaking(es[..n], k);
          assert !EndsAt(es, n);
        }
      }
      if Now(es).active {
        if es[n].Open? || es[n].Line? {
          assert Speaking(es, n);
        } else {
          var k :| 0 <= k < n && Speaking(es[..n], k);
          assert Speaking(es, k);
        }
      }
    }
  }

  lemma NothingYet()
    ensures Now([]) == NO_DIALOGUE
  {
  }

  // ---- what is offered and shown ---------------------------------------------------------------------------------

  /** The list is the host's, cut to twelve choices of 255 bytes. */
  ghost predicate Cuts(shown: seq<Choice>, list: seq<Choice>) {
    && |shown| == (if |list| <= 12 then |list| else 12)
    && forall i :: 0 <= i < |shown| ==>
         && shown[i].id == list[i].id && shown[i].enabled == list[i].enabled
         && shown[i].text == if |list[i].text| <= 255 then list[i].text else list[i].text[..255]
  }

  /** A list stays on offer until the next list, opening or end. */
  lemma {:induction false} OfferStands(es: seq<Event>, k: nat)
    requires k < |es| && es[k].Choices?
    requires forall j :: k < j < |es| ==> !es[j].Choices? && !es[j].Open? && !EndsAt(es, j)
    ensures Cuts(Now(es).choices, es[k].choices)
  {
    hide Run;
    var n := |es| - 1;
    OneMore(es);
    StepFrame(At(es, n), es[n]);
    if k < n {
      forall j | 0 <= j < n ensures es[..n][j] == es[j] && (EndsAt(es[..n], j) <==> EndsAt(es, j)) { Earlier(es, j); }
      OfferStands(es[..n], k);
    }
  }

  /** Without a list since the last opening or end, nothing is on offer. */
  lemma {:induction false} NoListNoOffer(es: seq<Event>, k: nat)
    requires k <= |es| && (k == 0 || es[k - 1].Open? || EndsAt(es, k - 1))
    requires forall j :: k <= j < |es| ==> !es[j].Choices?
    ensures Now(es).choices == []
  {
    hide Run, Step, Ends;
    if es == [] {
      NothingYet();
    } else {
      var n := |es| - 1;
      OneMore(es);
      StepFrame(At(es, n), es[n]);
      if k < |es| {
        if k > 0 { Earlier(es, k - 1); }
        NoListNoOffer(es[..n], k);
      }
    }
  }

  /** A line and its speaker stay until the next line, opening or end. */
  lemma {:induction false} LineStands(es: seq<Event>, k: nat)
    requires k < |es| && es[k].Line?
    requires forall j :: k < j < |es| ==> !es[j].Line? && !es[j].Open? && !EndsAt(es, j)
    ensures var d, text := Now(es), es[k].text;
            d.speaker == es[k].speakerId && d.line == if |text| <= 255 then text else text[..255]
  {
    hide Run;
    var n := |es| - 1;
    OneMore(es);
    StepFrame(At(es, n), es[n]);
    if k < n {
      forall j | 0 <= j < n ensures es[..n][j] == es[j] && (EndsAt(es[..n], j) <==> EndsAt(es, j)) { Earlier(es, j); }
      LineStands(es[..n], k);
    }
  }

  /** An opening names the partner until the next one, and the speaker until the next line. */
  lemma {:induction false} OpeningStands(es: seq<Event>, k: nat)
    requires k < |es| && es[k].Open? && forall j :: k < j < |es| ==> !es[j].Open?
    ensures Now(es).npc == es[k].npc
    ensures (forall j :: k < j < |es| ==> !es[j].Line?) ==> Now(es).speaker == es[k].speaker
  {
    hide Run;
    var n := |es| - 1;
    OneMore(es);
    if k < n {
      Earlier(es, k);
      OpeningStands(es[..n], k);
    }
  }

  /** How the dialogue ended is remembered until the next opening or end: the host's reason, or who chose what. */
  lemma {:induction false} EndStands(es: seq<Event>, k: nat)
    requires k < |es| && EndsAt(es, k) && forall j :: k < j < |es| ==> !es[j].Open? && !EndsAt(es, j)
    ensures var d, e := Now(es), es[k];
            && (e.Close? ==> d.closeReason == e.reason)
            && (e.Select? ==> d.closeReason == CLOSE_ENDED && d.lastChoice == e.choiceId && d.lastBy == e.player)
  {
    hide Run;
    var n := |es| - 1;
    OneMore(es);
    StepFrame(At(es, n), es[n]);
    if k < n {
      forall j | 0 <= j < n ensures es[..n][j] == es[j] && (EndsAt(es[..n], j) <==> EndsAt(es, j)) { Earlier(es, j); }
      EndStands(es[..n], k);
    } else if es[n].Select? {
      SelectedIffOffered(At(es, n), es[n].player, es[n].selectOf, es[n].choiceId);
    }
  }
}
