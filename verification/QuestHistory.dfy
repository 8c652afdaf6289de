/** The mirrored quest as a function of its history: which updates are taken, and what the last one taken leaves. */
module QuestHistory {
  import opened Quest

  /** The first stored objective with this id, if there is one, already was where the new state says, or was active. */
  ghost predicate Follows(stored: seq<Objective>, o: Objective) {
    forall i :: 0 <= i < |stored| && stored[i].id == o.id && (forall j :: 0 <= j < i ==> stored[j].id != o.id) ==>
      stored[i].state == o.state || stored[i].state == 0
  }

  /** The update is of the quest that is stored. */
  predicate Continues(q: State, u: Update) { q.loaded && q.questId == u.questId }

  /** The objective has one of the three states, and follows from what is stored of the same quest. */
  ghost predicate Fine(q: State, u: Update, o: Objective) {
    o.state <= 2 && (Continues(q, u) ==> Follows(q.objectives, o))
  }

  /** The mirror is on, there are at most sixteen objectives, no other quest is stored, the stage does not go back, and
      every objective is fine. */
  ghost predicate Welcome(enabled: bool, q: State, u: Update) {
    && enabled && |u.objectives| <= 16
    && (q.loaded && q.questId != 0 ==> q.questId == u.questId)
    && (Continues(q, u) ==> u.stage >= q.stage)
    && forall k :: 0 <= k < |u.objectives| ==> Fine(q, u, u.objectives[k])
  }

  lemma JudgeIff(q: State, u: Update, o: Objective)
    ensures var r := Judge(q, u.questId, o);
            && (r == 0 <==> Fine(q, u, o)) && (r == 5 <==> o.state > 2) && (r == 7 <==> o.state <= 2 && !Fine(q, u, o))
  {
    var j := ObjectiveIndex(q.objectives, o.id);
    if j < |q.objectives| && Follows(q.objectives, o) {
      assert q.objectives[j].state == o.state || q.objectives[j].state == 0;
    }
  }

  /** Exactly these updates are accepted. */
  lemma AcceptedIff(enabled: bool, q: State, u: Update)
    ensures Validate(enabled, q, u) == 0 <==> Welcome(enabled, q, u)
  {
    hide Judge, Fine;
    JudgeAllAccepts(q, u.questId, u.objectives);
    forall k | 0 <= k < |u.objectives|
      ensures Judge(q, u.questId, u.objectives[k]) == 0 <==> Fine(q, u, u.objectives[k])
    {
      JudgeIff(q, u, u.objectives[k]);
    }
  }

  /** A refusal names the first thing that is wrong, and of the objectives the first one that is. */
  lemma ReasonIs(enabled: bool, q: State, u: Update)
    requires !Welcome(enabled, q, u)
    ensures var r := Validate(enabled, q, u);
            if !enabled then r == 2
            else if |u.objectives| > 16 then r == 3
            else if q.loaded && q.questId != 0 && q.questId != u.questId then r == 4
            else if Continues(q, u) && u.stage < q.stage then r == 6
            else
              exists k :: 0 <= k < |u.objectives| && FirstWrong(q, u, k)
                          && r == if u.objectives[k].state > 2 then 5 else 7
  {
    hide Judge, Fine, FirstWrong;
    AcceptedIff(enabled, q, u);
    if Validate(enabled, q, u) == JudgeAll(q, u.questId, u.objectives) != 0 {
      JudgedAtFirst(q, u, |u.objectives|);
      assert u.objectives[..|u.objectives|] == u.objectives;
    }
  }

  ghost predicate FirstWrong(q: State, u: Update, k: nat)
    requires k < |u.objectives|
  {
    !Fine(q, u, u.objectives[k]) && forall j :: 0 <= j < k ==> Fine(q, u, u.objectives[j])
  }

  lemma {:induction false} JudgedAtFirst(q: State, u: Update, n: nat)
    requires n <= |u.objectives|
    ensures var r := JudgeAll(q, u.questId, u.objectives[..n]);
            if r == 0 then forall k :: 0 <= k < n ==> Fine(q, u, u.objectives[k])
            else exists k :: 0 <= k < n && FirstWrong(q, u, k) && r == if u.objectives[k].state > 2 then 5 else 7
  {
    hide Judge, Fine, FirstWrong;
    if n > 0 {
      JudgedAtFirst(q, u, n - 1);
      var o := u.objectives[n - 1];
      assert u.objectives[..n][..n - 1] == u.objectives[..n - 1] && u.objectives[..n][n - 1] == o;
      JudgeIff(q, u, o);
      var earlier := JudgeAll(q, u.questId, u.objectives[..n - 1]);
      assert JudgeAll(q, u.questId, u.objectives[..n]) == if earlier != 0 then earlier else Judge(q, u.questId, o);
      if earlier == 0 && !Fine(q, u, o) { LastIsFirstWrong(q, u, n - 1); }
    }
  }

  lemma LastIsFirstWrong(q: State, u: Update, k: nat)
    requires k < |u.objectives| && !Fine(q, u, u.objectives[k])
    requires forall j :: 0 <= j < k ==> Fine(q, u, u.objectives[j])
    ensures FirstWrong(q, u, k)
  {
  }

  /** The record says what the update says, with texts cut to 255 bytes. */
  ghost predicate Records(q: State, u: Update) {
    && q.loaded && q.questId == u.questId && q.stage == u.stage && q.tracked == u.tracked
    && |q.objectives| == |u.objectives|
    && forall k :: 0 <= k < |u.objectives| ==>
         var o, p := u.objectives[k], q.objectives[k];
         p.id == o.id && p.state == o.state && p.text == if |o.text| <= 255 then o.text else o.text[..255]
  }

  /** Over every run the record is the last update that was welcome; before there is one it is what it was. */
  lemma {:induction false} LastWelcomeStands(enabled: bool, q: State, us: seq<Update>, k: nat)
    requires k <= |us| && (k == 0 || Welcome(enabled, Run(enabled, q, us[..k - 1]), us[k - 1]))
    requires forall j :: k <= j < |us| ==> !Welcome(enabled, Run(enabled, q, us[..j]), us[j])
    ensures if k == 0 then Run(enabled, q, us) == q else Records(Run(enabled, q, us), us[k - 1])
  {
    hide Validate, Welcome, Stored;
    if us != [] {
      var n := |us| - 1;
      AcceptedIff(enabled, Run(enabled, q, us[..n]), us[n]);
      if k <= n {
        forall j | 0 <= j <= n ensures us[..n][..j] == us[..j] && (j < n ==> us[..n][j] == us[j]) {}
        LastWelcomeStands(enabled, q, us[..n], k);
      } else {
        StoresUpdate(us[n]);
      }
    }
  }

  lemma StoresUpdate(u: Update)
    ensures Records(State(true, u.questId, u.stage, u.tracked, Stored(u.objectives)), u)
  {
  }
}
