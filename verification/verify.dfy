/** The `/verify` command: a two-stage button dialogue that links the caller's
    Discord account to a Roblox account. The caller confirms the Roblox profile
    found for the typed username ("Yes"/"No"), is then shown a challenge phrase
    derived from their Discord id, and proves control of the Roblox account by
    putting the phrase in the profile description and pressing "DONE". A match
    stores the link and grants the verified role.

    Button clicks and the closing of a collector's 15-second window arrive as a
    sequence of events; the Roblox look-ups are inputs. */
module Verify {
  import opened Common
  import opened Guild

  // ---------------------------------------------------------------------------
  // Challenge phrase
  // ---------------------------------------------------------------------------

  /** The word table: position i maps a character to the word used when that
      character stands at position i of a Discord id. */
  type WordTable = seq<map<char, string>>

  /** Word i of the phrase, `randomWords[i][id[i]]`; a missing entry is
      `undefined`, which `join` renders as the empty string. */
  function WordAt(table: WordTable, id: string, i: nat): string
    requires i < |id| && i < |table|
  {
    if id[i] in table[i] then table[i][id[i]] else ""
  }

  /** The words of the phrase, one per character of the id, in position order. */
  function PhraseWords(table: WordTable, id: string): seq<string>
    requires |id| <= |table|
  {
    seq(|id|, i requires 0 <= i < |id| => WordAt(table, id, i))
  }

  /** The challenge phrase: the words joined with single spaces. */
  function Phrase(table: WordTable, id: string): string
    requires |id| <= |table|
  {
    Join(PhraseWords(table, id), ' ')
  }

  /** `generateRandomPhrase`: pushes one word per character, then joins them.
      A position beyond the table would throw, so the id must fit the table. */
  method GenerateRandomPhrase(table: WordTable, id: string) returns (phrase: string)
    requires |id| <= |table|
    ensures phrase == Join(PhraseWords(table, id), ' ')
  {
    var words: seq<string> := [];
    var i := 0;
    while i < |id|
      invariant 0 <= i <= |id|
      invariant |words| == i
      invariant forall k :: 0 <= k < i ==> words[k] == WordAt(table, id, k)
    {
      words := words + [WordAt(table, id, i)];
      i := i + 1;
    }
    assert words == PhraseWords(table, id);
    phrase := Join(words, ' ');
  }

  /** When no word of the table contains a space, the phrase splits back into
      exactly one word per character of the id, in position order. */
  lemma PhraseSplitsIntoWords(table: WordTable, id: string)
    requires 1 <= |id| <= |table|
    requires forall i :: 0 <= i < |id| ==> ' ' !in WordAt(table, id, i)
    ensures Split(Phrase(table, id), ' ') == PhraseWords(table, id)
    ensures |Split(Phrase(table, id), ' ')| == |id|
  {
    SplitJoin(PhraseWords(table, id), ' ');
  }

  // ---------------------------------------------------------------------------
  // The dialogue
  // ---------------------------------------------------------------------------

  /** What the profile service answered when the "DONE" click was handled:
      the request failed, or it returned the description (`null` is `None`). */
  datatype ProfileFetch = FetchFailed | Fetched(description: Option<string>)

  /** An interaction delivered to a collector, or the end of its time window.
      `profile` is only consulted for a "DONE" click. */
  datatype Event =
    | Click(userId: Id, isButton: bool, customId: string, profile: ProfileFetch)
    | WindowEnd

  /** Which collector is listening: the Yes/No one, the DONE/Cancel one, or none. */
  datatype Stage = Confirming | Proving(phrase: string) | Closed

  /** The status message each step shows (embeds reduced to their meaning). */
  datatype Reply =
    | ConfigIncomplete
    | LookupFailed
    | AlreadyVerified(existing: VerificationRecord)
    | Confirm
    | PhrasePrompt(phrase: string)
    | VerifiedReply
    | PhraseNotFound
    | Cancelled
    | Declined
    | InteractionError

  /** Everything fixed for one run of the command: who asked, for which Roblox
      account, the word table, the first configured verified role, whether the
      caller is in the member cache, and how Discord answers role and nickname
      changes. */
  datatype Session = Session(
    discordId: Id, username: string, robloxId: int, table: WordTable,
    verifiedRole: Option<Id>, memberPresent: bool, faults: Faults, nicknameAllowed: bool)

  /** The state the dialogue can change: the verified-account records and the
      caller's roles and nickname. */
  datatype World = World(records: map<Id, VerificationRecord>, roles: set<Id>, nickname: Option<string>)

  datatype Outcome = Outcome(stage: Stage, world: World, replies: seq<Reply>)

  /** The record a successful verification stores: the username as typed. */
  function RecordOf(s: Session): VerificationRecord {
    VerificationRecord(s.username, s.robloxId, s.discordId)
  }

  /** The collectors' filter: only button clicks of the caller are acted upon. */
  predicate FromCaller(s: Session, ev: Event) {
    ev.Click? && ev.userId == s.discordId && ev.isButton
  }

  /** A click the collectors' filter drops: another user's, or not a button. */
  predicate Foreign(s: Session, ev: Event) {
    ev.Click? && !FromCaller(s, ev)
  }

  /** A "DONE" click whose fetched description is non-empty and contains the
      phrase exactly. */
  predicate ProvesPhrase(s: Session, ev: Event, phrase: string) {
    FromCaller(s, ev) && ev.customId == "done_verification" &&
    ev.profile.Fetched? && ev.profile.description.Some? &&
    ev.profile.description.value != "" && Includes(ev.profile.description.value, phrase)
  }

  /** A phrase-proof stage always carries the caller's own phrase. */
  predicate StageOk(s: Session, st: Stage) {
    st.Proving? ==> |s.discordId| <= |s.table| && st.phrase == Phrase(s.table, s.discordId)
  }

  /** One collector callback. The Yes/No collector stops on "Yes" (after showing
      the phrase) and on "No"; the DONE/Cancel collector stops only on "Cancel".
      A failed profile fetch or a failed role change is caught and reported,
      leaving the collector listening. Window ends are silent: the command has
      already replied, so the guarded timeout edit never runs. */
  function Step(s: Session, st: Stage, w: World, ev: Event): (o: Outcome)
    requires StageOk(s, st)
    ensures StageOk(s, o.stage)
    ensures ev.WindowEnd? || st.Closed? ==> o == Outcome(Closed, w, [])
    ensures Foreign(s, ev) ==> o == Outcome(st, w, [])
    ensures o.world == w || (st.Proving? && ProvesPhrase(s, ev, st.phrase))
    ensures st.Proving? && ProvesPhrase(s, ev, st.phrase) ==>
              o.world.records == w.records[s.discordId := RecordOf(s)]
    ensures o.world.roles == w.roles ||
              (o.world.records == w.records[s.discordId := RecordOf(s)] &&
               s.memberPresent && s.verifiedRole.Some? && o.world.roles == w.roles + {s.verifiedRole.value})
    ensures o.stage.Proving? ==>
              ((st.Proving? && o.stage == st) ||
               (st.Confirming? && FromCaller(s, ev) && ev.customId == "verify_yes"))
    ensures VerifiedReply in o.replies ==> st.Proving? && ProvesPhrase(s, ev, st.phrase)
  {
    match st
    case Closed => Outcome(Closed, w, [])
    case Confirming =>
      if ev.WindowEnd? then Outcome(Closed, w, [])
      else if !FromCaller(s, ev) then Outcome(st, w, [])
      else if ev.customId == "verify_yes" then
        if |s.discordId| <= |s.table| then
          var phrase := Phrase(s.table, s.discordId);
          Outcome(Proving(phrase), w, [PhrasePrompt(phrase)])
        else Outcome(st, w, [InteractionError])
      else if ev.customId == "verify_no" then Outcome(Closed, w, [Declined])
      else Outcome(st, w, [])
    case Proving(phrase) =>
      if ev.WindowEnd? then Outcome(Closed, w, [])
      else if !FromCaller(s, ev) then Outcome(st, w, [])
      else if ev.customId == "done_verification" then
        if ev.profile.FetchFailed? then Outcome(st, w, [InteractionError])
        else if ProvesPhrase(s, ev, phrase) then
          var saved := w.(records := w.records[s.discordId := RecordOf(s)]);
          if !s.memberPresent then Outcome(st, saved, [VerifiedReply])
          else if s.verifiedRole.None? || FaultCount(s.faults, s.verifiedRole.value) > 0 then
            Outcome(st, saved, [InteractionError])
          else
            var granted := saved.(roles := saved.roles + {s.verifiedRole.value});
            var renamed := if s.nicknameAllowed then granted.(nickname := Some(s.username)) else granted;
            Outcome(st, renamed, [VerifiedReply])
        else Outcome(st, w, [PhraseNotFound])
      else if ev.customId == "cancel_verification" then Outcome(Closed, w, [Cancelled])
      else Outcome(st, w, [])
  }

  /** The collectors' callbacks applied to the events in arrival order. */
  function Run(s: Session, st: Stage, w: World, evs: seq<Event>): (o: Outcome)
    requires StageOk(s, st)
    decreases |evs|
  {
    if evs == [] then Outcome(st, w, [])
    else
      var first := Step(s, st, w, evs[0]);
      var rest := Run(s, first.stage, first.world, evs[1..]);
      Outcome(rest.stage, rest.world, first.replies + rest.replies)
  }

  /** Whatever the events, the only record a dialogue can write is the caller's
      own, holding the typed username, the resolved Roblox id and the Discord id;
      the only role it can grant is the verified role, and only together with
      that record. */
  lemma {:induction false} RunWritesOnlyCallersRecord(s: Session, st: Stage, w: World, evs: seq<Event>)
    requires StageOk(s, st)
    ensures Run(s, st, w, evs).world.records == w.records ||
            Run(s, st, w, evs).world.records == w.records[s.discordId := RecordOf(s)]
    ensures Run(s, st, w, evs).world.roles == w.roles ||
            (Run(s, st, w, evs).world.records == w.records[s.discordId := RecordOf(s)] &&
             s.memberPresent && s.verifiedRole.Some? &&
             Run(s, st, w, evs).world.roles == w.roles + {s.verifiedRole.value})
    decreases |evs|
  {
    if evs != [] {
      var first := Step(s, st, w, evs[0]);
      RunWritesOnlyCallersRecord(s, first.stage, first.world, evs[1..]);
    }
  }

  /** Without a "DONE" click whose description contains the phrase, nothing is
      stored and no role or nickname changes, whatever else happens. */
  lemma {:induction false} NoProofNoChange(s: Session, st: Stage, w: World, evs: seq<Event>)
    requires StageOk(s, st)
    requires |s.discordId| <= |s.table|
    requires forall k :: 0 <= k < |evs| ==> !ProvesPhrase(s, evs[k], Phrase(s.table, s.discordId))
    ensures Run(s, st, w, evs).world == w
    decreases |evs|
  {
    if evs != [] {
      var first := Step(s, st, w, evs[0]);
      NoProofNoChange(s, first.stage, first.world, evs[1..]);
    }
  }

  /** Until the caller clicks "Yes", no phrase is shown and nothing changes:
      "DONE" is only handled by the second collector. */
  lemma {:induction false} NothingBeforeYes(s: Session, st: Stage, w: World, evs: seq<Event>)
    requires st == Confirming || st == Closed
    requires forall k :: 0 <= k < |evs| ==> !(FromCaller(s, evs[k]) && evs[k].customId == "verify_yes")
    ensures Run(s, st, w, evs).world == w
    ensures Run(s, st, w, evs).stage == st || Run(s, st, w, evs).stage == Closed
    ensures forall r :: r in Run(s, st, w, evs).replies ==> r == Declined
    decreases |evs|
  {
    if evs != [] {
      var first := Step(s, st, w, evs[0]);
      NothingBeforeYes(s, first.stage, first.world, evs[1..]);
    }
  }

  /** Once both collectors are stopped nothing happens any more. */
  lemma {:induction false} ClosedIsFinal(s: Session, w: World, evs: seq<Event>)
    ensures Run(s, Closed, w, evs) == Outcome(Closed, w, [])
    decreases |evs|
  {
    if evs != [] {
      ClosedIsFinal(s, w, evs[1..]);
    }
  }

  /** An expired window, "No" at the confirmation and "Cancel" at the phrase
      proof each end the dialogue with no change to records, roles or nickname. */
  lemma EndingsChangeNothing(s: Session, st: Stage, w: World, evs: seq<Event>)
    requires StageOk(s, st) && evs != []
    requires evs[0].WindowEnd? ||
             (st.Confirming? && FromCaller(s, evs[0]) && evs[0].customId == "verify_no") ||
             (st.Proving? && FromCaller(s, evs[0]) && evs[0].customId == "cancel_verification")
    ensures Run(s, st, w, evs).world == w
    ensures Run(s, st, w, evs).stage == Closed
    ensures |Run(s, st, w, evs).replies| <= 1
  {
    ClosedIsFinal(s, w, evs[1..]);
  }

  /** Clicks by other users and non-button interactions are filtered out. */
  function Relevant(s: Session, evs: seq<Event>): seq<Event> {
    if evs == [] then []
    else if Foreign(s, evs[0]) then Relevant(s, evs[1..])
    else [evs[0]] + Relevant(s, evs[1..])
  }

  /** Only the caller's button clicks (and window ends) influence the dialogue. */
  lemma {:induction false} OthersAreIgnored(s: Session, st: Stage, w: World, evs: seq<Event>)
    requires StageOk(s, st)
    ensures Run(s, st, w, Relevant(s, evs)) == Run(s, st, w, evs)
    decreases |evs|
  {
    if evs != [] {
      var first := Step(s, st, w, evs[0]);
      OthersAreIgnored(s, first.stage, first.world, evs[1..]);
      if !Foreign(s, evs[0]) {
        assert Relevant(s, evs)[0] == evs[0];
        assert Relevant(s, evs)[1..] == Relevant(s, evs[1..]);
      }
    }
  }

  // ---------------------------------------------------------------------------
  // The command, run against the store and the member
  // ---------------------------------------------------------------------------

  /** The part of the world held by the objects (a missing member holds nothing). */
  function WorldOf(records: map<Id, VerificationRecord>, member: Member?): World
    reads member
  {
    if member == null then World(records, {}, None) else World(records, member.roles, member.nickname)
  }

  /** One collector callback, performed on the store and the member. */
  method Handle(s: Session, st: Stage, ev: Event, store: IdentityStore, member: Member?)
    returns (next: Stage, replies: seq<Reply>)
    requires StageOk(s, st)
    requires s.memberPresent == (member != null)
    modifies store, member
    ensures var o := Step(s, st, old(WorldOf(store.records, member)), ev);
            next == o.stage && replies == o.replies && WorldOf(store.records, member) == o.world
  {
    if st.Closed? || ev.WindowEnd? {
      return Closed, [];
    }
    if !FromCaller(s, ev) {
      return st, [];
    }
    if st.Confirming? {
      if ev.customId == "verify_yes" {
        if |s.discordId| > |s.table| {
          return st, [InteractionError];
        }
        var phrase := GenerateRandomPhrase(s.table, s.discordId);
        return Proving(phrase), [PhrasePrompt(phrase)];
      } else if ev.customId == "verify_no" {
        return Closed, [Declined];
      }
      return st, [];
    }
    if ev.customId == "done_verification" {
      if ev.profile.FetchFailed? {
        return st, [InteractionError];
      }
      if !ProvesPhrase(s, ev, st.phrase) {
        return st, [PhraseNotFound];
      }
      store.Save(RecordOf(s));
      if member != null {
        if s.verifiedRole.None? {
          return st, [InteractionError];
        }
        var added := member.AddRole(s.verifiedRole.value, FaultCount(s.faults, s.verifiedRole.value) > 0);
        if !added {
          return st, [InteractionError];
        }
        var renamed := member.SetNickname(Some(s.username), s.nicknameAllowed);
      }
      return st, [VerifiedReply];
    } else if ev.customId == "cancel_verification" {
      return Closed, [Cancelled];
    }
    return st, [];
  }

  /** Handling the first event keeps the loop's account of the whole run. */
  lemma RunAdvances(s: Session, st: Stage, w: World, evs: seq<Event>, replies: seq<Reply>, all: Outcome)
    requires StageOk(s, st) && evs != []
    requires Run(s, st, w, evs).world == all.world && replies + Run(s, st, w, evs).replies == all.replies
    ensures var o := Step(s, st, w, evs[0]);
            var rest := Run(s, o.stage, o.world, evs[1..]);
            rest.world == all.world && (replies + o.replies) + rest.replies == all.replies
  {
    var o := Step(s, st, w, evs[0]);
    var rest := Run(s, o.stage, o.world, evs[1..]);
    assert replies + (o.replies + rest.replies) == (replies + o.replies) + rest.replies;
  }

  /** The collectors at work: each event is handed to the callback of the
      collector listening at that moment. */
  method Dialogue(s: Session, store: IdentityStore, member: Member?, events: seq<Event>)
    returns (replies: seq<Reply>)
    requires s.memberPresent == (member != null)
    modifies store, member
    ensures var o := Run(s, Confirming, old(WorldOf(store.records, member)), events);
            replies == o.replies && WorldOf(store.records, member) == o.world
  {
    ghost var all := Run(s, Confirming, WorldOf(store.records, member), events);
    replies := [];
    var st := Confirming;
    var i := 0;
    while i < |events|
      invariant 0 <= i <= |events|
      invariant StageOk(s, st)
      invariant var o := Run(s, st, WorldOf(store.records, member), events[i..]);
                o.world == all.world && replies + o.replies == all.replies
    {
      ghost var w := WorldOf(store.records, member);
      ghost var o := Step(s, st, w, events[i]);
      RunAdvances(s, st, w, events[i..], replies, all);
      assert events[i..][0] == events[i];
      assert events[i..][1..] == events[i + 1..];
      var next, out := Handle(s, st, events[i], store, member);
      assert next == o.stage && out == o.replies && WorldOf(store.records, member) == o.world;
      replies := replies + out;
      st := next;
      i := i + 1;
    }
  }

  /** `/verify username`: the configuration check, the username look-up (`None`
      when it throws), the already-verified guard, the confirmation prompt, and
      then the dialogue over `events`. */
  method Execute(
    store: IdentityStore, member: Member?, configComplete: bool,
    discordId: Id, username: string, lookup: Option<int>,
    table: WordTable, verifiedRoleIds: seq<Id>, faults: Faults, nicknameAllowed: bool,
    events: seq<Event>)
    returns (replies: seq<Reply>)
    modifies store, member
    ensures !configComplete ==>
              replies == [ConfigIncomplete] && WorldOf(store.records, member) == old(WorldOf(store.records, member))
    ensures configComplete && lookup.None? ==>
              replies == [LookupFailed] && WorldOf(store.records, member) == old(WorldOf(store.records, member))
    ensures configComplete && lookup.Some? && discordId in old(store.records) ==>
              replies == [AlreadyVerified(old(store.records)[discordId])] &&
              WorldOf(store.records, member) == old(WorldOf(store.records, member))
    ensures configComplete && lookup.Some? && discordId !in old(store.records) ==>
              var s := Session(discordId, username, lookup.value, table,
                               if verifiedRoleIds == [] then None else Some(verifiedRoleIds[0]),
                               member != null, faults, nicknameAllowed);
              var o := Run(s, Confirming, old(WorldOf(store.records, member)), events);
              replies == [Confirm] + o.replies && WorldOf(store.records, member) == o.world
  {
    if !configComplete {
      return [ConfigIncomplete];
    }
    if lookup.None? {
      return [LookupFailed];
    }
    var existing := store.FindOne(discordId);
    if existing.Some? {
      return [AlreadyVerified(existing.value)];
    }
    var s := Session(discordId, username, lookup.value, table,
                     if verifiedRoleIds == [] then None else Some(verifiedRoleIds[0]),
                     member != null, faults, nicknameAllowed);
    var dialogue := Dialogue(s, store, member, events);
    replies := [Confirm] + dialogue;
  }
}
