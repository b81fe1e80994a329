/**
  The bot's dialogs: one stored session per chat, the commands that enter and leave a dialog, and
  the text handlers of its states, with every session read, save and remote call able to fail.
 */
module Dialog {
  import opened Tags

  type ChatId = int

  datatype SessionState =
    | Idle | WaitingForUrlTrack | WaitingForTags | WaitingForUrlUntrack
    | Other(name: string)

  datatype Session = Session(state: SessionState, url: string)

  /** What the scrapper answers to AddLink or RemoveLink. */
  datatype Remote =
    | Accepted | AlreadySubscribed | ChatNotRegistered | UrlNotSupported
    | NotSubscribed | ChatNotRegisteredOrLinkNotFound | RemoteFailure

  datatype Call = AddLink(chat: ChatId, url: string, tags: seq<string>) | RemoveLink(chat: ChatId, url: string)

  datatype Answer =
    | SessionError | UnknownState | IdleHint | EmptyUrl | Unexpected | SendTags
    | AlreadyTracking | NotRegistered | NotSupported | TrackFailed | NowTracking(url: string)
    | NotTracking | NotRegisteredOrTracking | UntrackFailed | Untracked(url: string)
    | SendUrlToTrack | SendUrlToUntrack | CancelFailed | NothingToCancel | Canceled

  /** The sessions table, the chats it refers to, and the remote calls made so far. */
  datatype World = World(sessions: map<ChatId, Session>, chats: set<ChatId>, calls: seq<Call>)

  datatype Outcome = Outcome(world: World, answer: Answer)

  datatype Event =
    | Track(chat: ChatId, getOk: bool, saveOk: bool)
    | Untrack(chat: ChatId, getOk: bool, saveOk: bool)
    | Cancel(chat: ChatId, deleteOk: bool)
    | Text(chat: ChatId, text: string, getOk: bool, saveOk: bool, remote: Remote)
    | Register(chat: ChatId)
    | Unregister(chat: ChatId)

  const NEW := Session(Idle, "")

  // ---------------------------------------------------------------- the session repository

  /** GetOrCreate inserts an idle session; the foreign key refuses a chat that is not registered. */
  predicate CanGet(w: World, c: ChatId, ok: bool) {
    ok && (c in w.sessions || c in w.chats)
  }

  function Created(w: World, c: ChatId): World {
    if c in w.sessions then w else w.(sessions := w.sessions[c := NEW])
  }

  /** The constraint valid_session_state refuses any state outside the four. */
  predicate CanSave(w: World, c: ChatId, s: Session, ok: bool) {
    ok && c in w.chats && !s.state.Other?
  }

  function Saved(w: World, c: ChatId, s: Session, ok: bool): World {
    if CanSave(w, c, s, ok) then w.(sessions := w.sessions[c := s]) else w
  }

  // ---------------------------------------------------------------- the handlers as functions

  function Enter(w: World, c: ChatId, state: SessionState, getOk: bool, saveOk: bool, done: Answer): Outcome {
    if !CanGet(w, c, getOk) then Outcome(w, SessionError)
    else
      var w1 := Created(w, c);
      var s := Session(state, "");
      Outcome(Saved(w1, c, s, saveOk), if CanSave(w1, c, s, saveOk) then done else SessionError)
  }

  function Canceling(w: World, c: ChatId, ok: bool): Outcome {
    if !ok then Outcome(w, CancelFailed)
    else if c !in w.sessions then Outcome(w, NothingToCancel)
    else
      Outcome(w.(sessions := w.sessions - {c}), if w.sessions[c].state == Idle then NothingToCancel else Canceled)
  }

  function UrlGiven(w: World, c: ChatId, text: string, saveOk: bool): Outcome {
    var url := TrimSpace(text);
    var s := Session(WaitingForTags, url);
    if url == "" then Outcome(w, EmptyUrl)
    else Outcome(Saved(w, c, s, saveOk), if CanSave(w, c, s, saveOk) then SendTags else Unexpected)
  }

  function TagsGiven(w: World, c: ChatId, url: string, text: string, saveOk: bool, remote: Remote): Outcome {
    var w1 := w.(calls := w.calls + [AddLink(c, url, Parse(text))]);
    match remote
    case Accepted =>
      Outcome(Saved(w1, c, NEW, saveOk), if CanSave(w1, c, NEW, saveOk) then NowTracking(url) else Unexpected)
    case AlreadySubscribed => Outcome(w1, AlreadyTracking)
    case ChatNotRegistered => Outcome(w1, NotRegistered)
    case UrlNotSupported => Outcome(w1, NotSupported)
    case _ => Outcome(w1, TrackFailed)
  }

  function UntrackUrlGiven(w: World, c: ChatId, text: string, saveOk: bool, remote: Remote): Outcome {
    var url := TrimSpace(text);
    if url == "" then Outcome(w, EmptyUrl)
    else
      var w1 := w.(calls := w.calls + [RemoveLink(c, url)]);
      match remote
      case Accepted =>
        Outcome(Saved(w1, c, NEW, saveOk), if CanSave(w1, c, NEW, saveOk) then Untracked(url) else Unexpected)
      case NotSubscribed => Outcome(w1, NotTracking)
      case ChatNotRegisteredOrLinkNotFound => Outcome(w1, NotRegisteredOrTracking)
      case _ => Outcome(w1, UntrackFailed)
  }

  function Handled(w: World, c: ChatId, text: string, getOk: bool, saveOk: bool, remote: Remote): Outcome {
    if !CanGet(w, c, getOk) then Outcome(w, SessionError)
    else
      var w1 := Created(w, c);
      match w1.sessions[c].state
      case Idle => Outcome(w1, IdleHint)
      case WaitingForUrlTrack => UrlGiven(w1, c, text, saveOk)
      case WaitingForTags => TagsGiven(w1, c, w1.sessions[c].url, text, saveOk, remote)
      case WaitingForUrlUntrack => UntrackUrlGiven(w1, c, text, saveOk, remote)
      case Other(_) => Outcome(Saved(w1, c, NEW, saveOk), UnknownState)
  }

  function Step(w: World, e: Event): Outcome {
    match e
    case Track(c, getOk, saveOk) => Enter(w, c, WaitingForUrlTrack, getOk, saveOk, SendUrlToTrack)
    case Untrack(c, getOk, saveOk) => Enter(w, c, WaitingForUrlUntrack, getOk, saveOk, SendUrlToUntrack)
    case Cancel(c, ok) => Canceling(w, c, ok)
    case Text(c, text, getOk, saveOk, remote) => Handled(w, c, text, getOk, saveOk, remote)
    case Register(c) => Outcome(w.(chats := w.chats + {c}), IdleHint)
    case Unregister(c) => Outcome(w.(chats := w.chats - {c}, sessions := w.sessions - {c}), IdleHint)
  }

  // ---------------------------------------------------------------- the bot

  class Bot {
    var sessions: map<ChatId, Session>
    var chats: set<ChatId>
    var calls: seq<Call>

    constructor ()
      ensures State() == World(map[], {}, [])
    {
      sessions, chats, calls := map[], {}, [];
    }

    function State(): World
      reads this
    {
      World(sessions, chats, calls)
    }

    method GetOrCreate(c: ChatId, ok: bool) returns (found: bool, session: Session)
      modifies this`sessions
      ensures found == CanGet(old(State()), c, ok)
      ensures State() == if found then Created(old(State()), c) else old(State())
      ensures found ==> c in sessions && session == sessions[c]
    {
      session := NEW;
      found := ok && (c in sessions || c in chats);
      if found {
        if c !in sessions {
          sessions := sessions[c := session];
        }
        session := sessions[c];
      }
    }

    method Save(c: ChatId, session: Session, ok: bool) returns (saved: bool)
      modifies this`sessions
      ensures saved == CanSave(old(State()), c, session, ok)
      ensures State() == Saved(old(State()), c, session, ok)
    {
      saved := ok && c in chats && !session.state.Other?;
      if saved {
        sessions := sessions[c := session];
      }
    }

    method TrackCommand(c: ChatId, getOk: bool, saveOk: bool) returns (answer: Answer)
      modifies this
      ensures Outcome(State(), answer) == Step(old(State()), Track(c, getOk, saveOk))
    {
      var ok, session := GetOrCreate(c, getOk);
      if !ok {
        return SessionError;
      }
      session := Session(Idle, "");
      session := session.(state := WaitingForUrlTrack);
      ok := Save(c, session, saveOk);
      answer := if ok then SendUrlToTrack else SessionError;
    }

    method UntrackCommand(c: ChatId, getOk: bool, saveOk: bool) returns (answer: Answer)
      modifies this
      ensures Outcome(State(), answer) == Step(old(State()), Untrack(c, getOk, saveOk))
    {
      var ok, session := GetOrCreate(c, getOk);
      if !ok {
        return SessionError;
      }
      session := Session(Idle, "");
      session := session.(state := WaitingForUrlUntrack);
      ok := Save(c, session, saveOk);
      answer := if ok then SendUrlToUntrack else SessionError;
    }

    method CancelCommand(c: ChatId, deleteOk: bool) returns (answer: Answer)
      modifies this
      ensures Outcome(State(), answer) == Step(old(State()), Cancel(c, deleteOk))
    {
      if !deleteOk {
        return CancelFailed;
      }
      if c !in sessions {
        return NothingToCancel;
      }
      var session := sessions[c];
      sessions := sessions - {c};
      answer := if session.state == Idle then NothingToCancel else Canceled;
    }

    method HandleMessage(c: ChatId, text: string, getOk: bool, saveOk: bool, remote: Remote) returns (answer: Answer)
      modifies this
      ensures Outcome(State(), answer) == Step(old(State()), Text(c, text, getOk, saveOk, remote))
    {
      var ok, session := GetOrCreate(c, getOk);
      if !ok {
        return SessionError;
      }
      match session.state {
        case Idle =>
          answer := IdleHint;
        case WaitingForUrlTrack =>
          answer := HandleWaitingForUrlTrack(c, session, text, saveOk);
        case WaitingForTags =>
          answer := HandleWaitingForTags(c, session, text, saveOk, remote);
        case WaitingForUrlUntrack =>
          answer := HandleWaitingForUrlUntrack(c, session, text, saveOk, remote);
        case Other(_) =>
          var _ := Save(c, NEW, saveOk);
          answer := UnknownState;
      }
    }

    method HandleWaitingForUrlTrack(c: ChatId, session: Session, text: string, saveOk: bool) returns (answer: Answer)
      modifies this
      ensures Outcome(State(), answer) == UrlGiven(old(State()), c, text, saveOk)
    {
      var url := TrimSpace(text);
      if url == "" {
        return EmptyUrl;
      }
      var next := session.(url := url, state := WaitingForTags);
      var ok := Save(c, next, saveOk);
      answer := if ok then SendTags else Unexpected;
    }

    method HandleWaitingForTags(c: ChatId, session: Session, text: string, saveOk: bool, remote: Remote)
      returns (answer: Answer)
      modifies this
      ensures Outcome(State(), answer) == TagsGiven(old(State()), c, session.url, text, saveOk, remote)
    {
      var tags := ParseTags(text);
      calls := calls + [AddLink(c, session.url, tags)];
      match remote {
        case Accepted =>
          var ok := Save(c, NEW, saveOk);
          answer := if ok then NowTracking(session.url) else Unexpected;
        case AlreadySubscribed => answer := AlreadyTracking;
        case ChatNotRegistered => answer := NotRegistered;
        case UrlNotSupported => answer := NotSupported;
        case _ => answer := TrackFailed;
      }
    }

    method HandleWaitingForUrlUntrack(c: ChatId, session: Session, text: string, saveOk: bool, remote: Remote)
      returns (answer: Answer)
      modifies this
      ensures Outcome(State(), answer) == UntrackUrlGiven(old(State()), c, text, saveOk, remote)
    {
      var url := TrimSpace(text);
      if url == "" {
        return EmptyUrl;
      }
      calls := calls + [RemoveLink(c, url)];
      match remote {
        case Accepted =>
          var ok := Save(c, NEW, saveOk);
          answer := if ok then Untracked(url) else Unexpected;
        case NotSubscribed => answer := NotTracking;
        case ChatNotRegisteredOrLinkNotFound => answer := NotRegisteredOrTracking;
        case _ => answer := UntrackFailed;
      }
    }
  }

  // ---------------------------------------------------------------- sessions in every run

  /** The world before event number n. */
  ghost function RunTo(events: seq<Event>, n: nat): World
    requires n <= |events|
  {
    if n == 0 then World(map[], {}, []) else Step(RunTo(events, n - 1), events[n-1]).world
  }

  ghost predicate SessionsOk(w: World) {
    forall c :: c in w.sessions ==>
      && c in w.chats
      && !w.sessions[c].state.Other?
      && (w.sessions[c].url != "" <==> w.sessions[c].state == WaitingForTags)
  }

  /** The sessions after one event, without the calls and answers that go with them. */
  ghost function SessionsAfter(w: World, e: Event): map<ChatId, Session> {
    var c := e.chat;
    match e
    case Track(_, getOk, saveOk) =>
      if !CanGet(w, c, getOk) then w.sessions
      else if saveOk && c in w.chats then w.sessions[c := Session(WaitingForUrlTrack, "")]
      else Created(w, c).sessions
    case Untrack(_, getOk, saveOk) =>
      if !CanGet(w, c, getOk) then w.sessions
      else if saveOk && c in w.chats then w.sessions[c := Session(WaitingForUrlUntrack, "")]
      else Created(w, c).sessions
    case Cancel(_, ok) => if ok then w.sessions - {c} else w.sessions
    case Text(_, text, getOk, saveOk, remote) =>
      if !CanGet(w, c, getOk) then w.sessions
      else if c in w.sessions && saveOk && c in w.chats then TextMoves(w.sessions, c, TrimSpace(text), remote)
      else Created(w, c).sessions
    case Register(_) => w.sessions
    case Unregister(_) => w.sessions - {c}
  }

  /** What a text does to an existing session when it can be saved. */
  ghost function TextMoves(m: map<ChatId, Session>, c: ChatId, url: string, remote: Remote): map<ChatId, Session>
    requires c in m
  {
    match m[c].state
    case Idle => m
    case WaitingForUrlTrack => if url == "" then m else m[c := Session(WaitingForTags, url)]
    case WaitingForTags => if remote.Accepted? then m[c := NEW] else m
    case WaitingForUrlUntrack => if url != "" && remote.Accepted? then m[c := NEW] else m
    case Other(_) => m[c := NEW]
  }

  /** A text to a chat that has a session, whether or not the save succeeds. */
  lemma KnownTextSessions(w: World, c: ChatId, text: string, saveOk: bool, remote: Remote)
    requires c in w.sessions
    ensures Handled(w, c, text, true, saveOk, remote).world.sessions
         == if saveOk && c in w.chats then TextMoves(w.sessions, c, TrimSpace(text), remote) else w.sessions
    ensures Handled(w, c, text, true, saveOk, remote).world.chats == w.chats
  {
    match w.sessions[c].state
    case WaitingForTags =>
      var o := TagsGiven(w, c, w.sessions[c].url, text, saveOk, remote);
      assert o.world.chats == w.chats;
    case WaitingForUrlUntrack =>
      var o := UntrackUrlGiven(w, c, text, saveOk, remote);
      assert o.world.chats == w.chats;
    case _ =>
  }

  lemma TextSessions(w: World, c: ChatId, text: string, getOk: bool, saveOk: bool, remote: Remote)
    ensures Handled(w, c, text, getOk, saveOk, remote).world.sessions
         == SessionsAfter(w, Text(c, text, getOk, saveOk, remote))
    ensures Handled(w, c, text, getOk, saveOk, remote).world.chats == w.chats
  {
    if getOk && c in w.sessions { KnownTextSessions(w, c, text, saveOk, remote); }
  }

  lemma StepSessions(w: World, e: Event)
    ensures Step(w, e).world.sessions == SessionsAfter(w, e)
    ensures !e.Unregister? ==> w.chats <= Step(w, e).world.chats
    ensures e.Unregister? ==> Step(w, e).world.chats == w.chats - {e.chat}
  {
    if e.Text? { TextSessions(w, e.chat, e.text, e.getOk, e.saveOk, e.remote); }
  }

  lemma SessionOfOther(w: World, e: Event, c: ChatId)
    requires e.chat != c
    ensures c in SessionsAfter(w, e) <==> c in w.sessions
    ensures c in w.sessions ==> SessionsAfter(w, e)[c] == w.sessions[c]
  {
  }

  /** One event leaves the session of every other chat alone. */
  lemma OtherSessionsUntouched(w: World, e: Event, c: ChatId)
    requires e.chat != c
    ensures c in Step(w, e).world.sessions <==> c in w.sessions
    ensures c in w.sessions ==> Step(w, e).world.sessions[c] == w.sessions[c]
  {
    StepSessions(w, e);
    SessionOfOther(w, e, c);
  }

  /**
    After every interleaving of commands, texts, failures and chat deletions, the stored url is
    non-empty exactly in the state that waits for tags, and no session has an unknown state.
   */
  lemma {:induction false} UrlExactlyWhileWaitingForTags(events: seq<Event>, n: nat)
    requires n <= |events|
    ensures SessionsOk(RunTo(events, n))
  {
    if n > 0 {
      UrlExactlyWhileWaitingForTags(events, n - 1);
      StepKeepsSessions(RunTo(events, n - 1), events[n-1]);
    }
  }

  lemma StepKeepsSessions(w: World, e: Event)
    requires SessionsOk(w)
    ensures SessionsOk(Step(w, e).world)
  {
    StepSessions(w, e);
    SessionsStayOk(w, Step(w, e).world, e);
  }

  lemma SessionsStayOk(w: World, w': World, e: Event)
    requires SessionsOk(w) && w'.sessions == SessionsAfter(w, e)
    requires w.chats - (if e.Unregister? then {e.chat} else {}) <= w'.chats
    ensures SessionsOk(w')
  {
    forall c | c in w'.sessions
      ensures c in w'.chats && !w'.sessions[c].state.Other?
      ensures w'.sessions[c].url != "" <==> w'.sessions[c].state == WaitingForTags
    {
      if c != e.chat { SessionOfOther(w, e, c); }
    }
  }

  // ---------------------------------------------------------------- where an added link comes from

  /** The event is a /track of the chat that was saved. */
  ghost predicate SavedTrack(w: World, e: Event, c: ChatId) {
    e.Track? && e.chat == c && CanGet(w, c, e.getOk) && e.saveOk && c in w.chats
  }

  /**
    The event restarts or ends the chat's dialog: a saved /track or /untrack, a /cancel that deletes,
    or the chat's deletion.
   */
  ghost predicate Ends(w: World, e: Event, c: ChatId) {
    || SavedTrack(w, e, c)
    || (e.Untrack? && e.chat == c && CanGet(w, c, e.getOk) && e.saveOk && c in w.chats)
    || (e.Cancel? && e.chat == c && e.deleteOk && c in w.sessions)
    || (e.Unregister? && e.chat == c)
  }

  /** Event i is the chat's latest saved /track before event n, and nothing has ended that dialog since. */
  ghost predicate TrackedSince(events: seq<Event>, i: nat, n: nat, c: ChatId)
    requires n <= |events|
  {
    && i < n && SavedTrack(RunTo(events, i), events[i], c)
    && forall m :: i < m < n ==> !Ends(RunTo(events, m), events[m], c)
  }

  /** Event j is the text that the chat answered the url question with, and whose save stored the url. */
  ghost predicate StoresUrl(events: seq<Event>, j: nat, c: ChatId, url: string)
    requires j < |events|
  {
    var before, after := RunTo(events, j).sessions, RunTo(events, j + 1).sessions;
    && events[j].Text? && events[j].chat == c && TrimSpace(events[j].text) == url
    && c in before && before[c].state == WaitingForUrlTrack
    && c in after && after[c] == Session(WaitingForTags, url)
  }

  /** Event j, after event i and before n, is the text that stored the url. */
  ghost predicate UrlFrom(events: seq<Event>, i: nat, j: nat, n: nat, c: ChatId, url: string)
    requires n <= |events|
  {
    TrackedSince(events, i, n, c) && i < j < n && StoresUrl(events, j, c, url) && TrackedSince(events, i, j, c)
  }

  ghost predicate Explained(events: seq<Event>, n: nat, c: ChatId)
    requires n <= |events|
  {
    var w := RunTo(events, n);
    c in w.sessions ==>
      && (w.sessions[c].state == WaitingForUrlTrack ==> exists i :: TrackedSince(events, i, n, c))
      && (w.sessions[c].state == WaitingForTags ==> exists i, j :: UrlFrom(events, i, j, n, c, w.sessions[c].url))
  }

  /** How one event can leave a session in one of the two states of the track dialog. */
  ghost predicate ComesFrom(w: World, e: Event, c: ChatId, s: Session) {
    && (s.state == WaitingForUrlTrack ==>
          SavedTrack(w, e, c) || (!Ends(w, e, c) && c in w.sessions && w.sessions[c] == s))
    && (s.state == WaitingForTags ==>
          !Ends(w, e, c) && c in w.sessions &&
          (w.sessions[c] == s ||
           (w.sessions[c].state == WaitingForUrlTrack && e.Text? && e.chat == c && TrimSpace(e.text) == s.url)))
  }

  lemma StateComesFrom(w: World, e: Event, c: ChatId)
    requires SessionsOk(w) && c in SessionsAfter(w, e)
    ensures ComesFrom(w, e, c, SessionsAfter(w, e)[c])
  {
    if c != e.chat { SessionOfOther(w, e, c); }
  }

  lemma RunStep(events: seq<Event>, n: nat)
    requires 0 < n <= |events|
    ensures SessionsOk(RunTo(events, n - 1))
    ensures RunTo(events, n).sessions == SessionsAfter(RunTo(events, n - 1), events[n-1])
  {
    UrlExactlyWhileWaitingForTags(events, n - 1);
    StepSessions(RunTo(events, n - 1), events[n-1]);
  }

  lemma {:induction false} DialogsExplained(events: seq<Event>, n: nat, c: ChatId)
    requires n <= |events|
    ensures Explained(events, n, c)
  {
    if n > 0 {
      DialogsExplained(events, n - 1, c);
      RunStep(events, n);
      if c in RunTo(events, n).sessions {
        StateComesFrom(RunTo(events, n - 1), events[n-1], c);
        StillExplained(events, n, c, RunTo(events, n - 1), RunTo(events, n).sessions[c]);
      }
    }
  }

  lemma TrackedLonger(events: seq<Event>, i: nat, n: nat, c: ChatId)
    requires 0 < n <= |events| && TrackedSince(events, i, n - 1, c)
    requires !Ends(RunTo(events, n - 1), events[n-1], c)
    ensures TrackedSince(events, i, n, c)
  {
    forall m | i < m < n ensures !Ends(RunTo(events, m), events[m], c) {
      if m < n - 1 { assert !Ends(RunTo(events, m), events[m], c); }
    }
  }

  lemma StillExplained(events: seq<Event>, n: nat, c: ChatId, w: World, s: Session)
    requires 0 < n <= |events| && w == RunTo(events, n - 1)
    requires Explained(events, n - 1, c) && ComesFrom(w, events[n-1], c, s)
    requires c in RunTo(events, n).sessions && RunTo(events, n).sessions[c] == s
    ensures s.state == WaitingForUrlTrack ==> exists i :: TrackedSince(events, i, n, c)
    ensures s.state == WaitingForTags ==> exists i, j :: UrlFrom(events, i, j, n, c, s.url)
  {
    if s.state == WaitingForUrlTrack && SavedTrack(w, events[n-1], c) {
      assert TrackedSince(events, n - 1, n, c);
    } else if s.state == WaitingForUrlTrack {
      var i :| TrackedSince(events, i, n - 1, c);
      TrackedLonger(events, i, n, c);
    } else if s.state == WaitingForTags {
      TagsStillExplained(events, n, c, w, s);
    }
  }

  lemma TagsStillExplained(events: seq<Event>, n: nat, c: ChatId, w: World, s: Session)
    requires 0 < n <= |events| && w == RunTo(events, n - 1) && s.state == WaitingForTags
    requires Explained(events, n - 1, c) && ComesFrom(w, events[n-1], c, s)
    requires c in RunTo(events, n).sessions && RunTo(events, n).sessions[c] == s
    ensures exists i, j :: UrlFrom(events, i, j, n, c, s.url)
  {
    if w.sessions[c] == s {
      var i, j :| UrlFrom(events, i, j, n - 1, c, s.url);
      TrackedLonger(events, i, n, c);
      assert UrlFrom(events, i, j, n, c, s.url);
    } else {
      var i :| TrackedSince(events, i, n - 1, c);
      TrackedLonger(events, i, n, c);
      assert StoresUrl(events, n - 1, c, s.url);
      assert UrlFrom(events, i, n - 1, n, c, s.url);
    }
  }

  /**
    Every AddLink of every run is caused by a text of its chat, carries the tags parsed from that
    text, and the non-empty url that the same chat sent, trimmed, in answer to its latest saved /track,
    namely in the text whose save moved the session on to the tags, with no saved /untrack, no
    successful /cancel and no deletion of the chat in between.
   */
  lemma AddLinkProvenance(events: seq<Event>, n: nat, c: ChatId, url: string, tags: seq<string>)
    requires n < |events|
    requires RunTo(events, n + 1).calls == RunTo(events, n).calls + [AddLink(c, url, tags)]
    ensures events[n].Text? && events[n].chat == c && tags == Parse(events[n].text) && url != ""
    ensures exists i, j :: UrlFrom(events, i, j, n, c, url)
  {
    var w, e := RunTo(events, n), events[n];
    UrlExactlyWhileWaitingForTags(events, n);
    CallsOfStep(w, e, AddLink(c, url, tags));
    DialogsExplained(events, n, c);
  }

  /** The remote call the event makes, if any. */
  ghost function Made(w: World, e: Event): seq<Call> {
    if !e.Text? || !e.getOk || e.chat !in w.sessions then []
    else
      var s := w.sessions[e.chat];
      if s.state == WaitingForTags then [AddLink(e.chat, s.url, Parse(e.text))]
      else if s.state == WaitingForUrlUntrack && TrimSpace(e.text) != "" then [RemoveLink(e.chat, TrimSpace(e.text))]
      else []
  }

  lemma CallsMade(w: World, e: Event)
    ensures Step(w, e).world.calls == w.calls + Made(w, e)
  {
    if e.Text? && e.getOk && e.chat in w.sessions {
      TextCallsMade(w, e.chat, e.text, e.saveOk, e.remote);
    }
  }

  lemma TextCallsMade(w: World, c: ChatId, text: string, saveOk: bool, remote: Remote)
    requires c in w.sessions
    ensures Handled(w, c, text, true, saveOk, remote).world.calls
           == w.calls + Made(w, Text(c, text, true, saveOk, remote))
  {
    match w.sessions[c].state
    case WaitingForTags =>
      assert TagsGiven(w, c, w.sessions[c].url, text, saveOk, remote).world.calls
          == w.calls + [AddLink(c, w.sessions[c].url, Parse(text))];
    case WaitingForUrlUntrack =>
    case _ =>
  }

  lemma CallsOfStep(w: World, e: Event, call: Call)
    requires Step(w, e).world.calls == w.calls + [call]
    ensures Made(w, e) == [call]
  {
    CallsMade(w, e);
    var made := w.calls + [call];
    assert made[|w.calls|..] == [call];
    assert (w.calls + Made(w, e))[|w.calls|..] == Made(w, e);
  }
}
