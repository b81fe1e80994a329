/**
  What the bot answers, and what its dialogs do from beginning to end: a chat that starts a dialog and
  answers its questions gets exactly the remote call it asked for.
 */
module Answers {
  import opened Tags
  import opened Dialog

  /** The chat's session can be read, or made. */
  ghost predicate Readable(w: World, c: ChatId, getOk: bool) {
    getOk && (c in w.sessions || c in w.chats)
  }

  /** A session can be stored for the chat. */
  ghost predicate Storable(w: World, c: ChatId, saveOk: bool) {
    saveOk && c in w.chats
  }

  ghost predicate HasSession(w: World, c: ChatId, state: SessionState, url: string) {
    c in w.sessions && w.sessions[c] == Session(state, url)
  }

  // ---------------------------------------------------------------- the commands

  /** /track asks for the url exactly if it could store that it did, whatever dialog was open before. */
  lemma TrackAnswers(w: World, c: ChatId, getOk: bool, saveOk: bool)
    ensures var o := Step(w, Track(c, getOk, saveOk));
            && o.world.calls == w.calls && o.world.chats == w.chats
            && (if Readable(w, c, getOk) && Storable(w, c, saveOk)
                then o.answer == SendUrlToTrack && HasSession(o.world, c, WaitingForUrlTrack, "")
                else o.answer == SessionError)
            && (c in w.sessions && o.answer == SessionError ==> o.world == w)
  {
  }

  lemma UntrackAnswers(w: World, c: ChatId, getOk: bool, saveOk: bool)
    ensures var o := Step(w, Untrack(c, getOk, saveOk));
            && o.world.calls == w.calls && o.world.chats == w.chats
            && (if Readable(w, c, getOk) && Storable(w, c, saveOk)
                then o.answer == SendUrlToUntrack && HasSession(o.world, c, WaitingForUrlUntrack, "")
                else o.answer == SessionError)
            && (c in w.sessions && o.answer == SessionError ==> o.world == w)
  {
  }

  /** /cancel says that it cancelled exactly if a dialog was open, and leaves no session unless it fails. */
  lemma CancelAnswers(w: World, c: ChatId, ok: bool)
    ensures var o := Step(w, Cancel(c, ok));
            && o.world.calls == w.calls && o.world.chats == w.chats
            && (o.answer == CancelFailed <==> !ok)
            && (o.answer == Canceled <==> ok && c in w.sessions && w.sessions[c].state != Idle)
            && (o.answer == NothingToCancel <==> ok && (c in w.sessions ==> w.sessions[c].state == Idle))
            && (if ok then c !in o.world.sessions else o.world == w)
  {
  }

  // ---------------------------------------------------------------- the texts, state by state

  lemma IdleAnswers(w: World, c: ChatId, text: string, getOk: bool, saveOk: bool, remote: Remote)
    requires c in w.sessions ==> w.sessions[c].state == Idle
    ensures var o := Step(w, Text(c, text, getOk, saveOk, remote));
            && o.answer == (if Readable(w, c, getOk) then IdleHint else SessionError)
            && o.world.calls == w.calls && o.world.chats == w.chats
            && (c in w.sessions ==> o.world == w)
            && (o.answer == IdleHint && c !in w.sessions ==> HasSession(o.world, c, Idle, ""))
  {
  }

  lemma UrlAnswers(w: World, c: ChatId, text: string, getOk: bool, saveOk: bool, remote: Remote)
    requires c in w.sessions && w.sessions[c].state == WaitingForUrlTrack
    ensures var o := Step(w, Text(c, text, getOk, saveOk, remote));
            && o.world.calls == w.calls && o.world.chats == w.chats
            && o.answer == (if !getOk then SessionError else if TrimSpace(text) == "" then EmptyUrl
                            else if Storable(w, c, saveOk) then SendTags else Unexpected)
            && (if o.answer == SendTags then HasSession(o.world, c, WaitingForTags, TrimSpace(text)) else o.world == w)
  {
  }

  /** What the scrapper's answer to AddLink is told as; only an accepted link that ends the dialog is "tracking". */
  lemma TagsAnswers(w: World, c: ChatId, text: string, getOk: bool, saveOk: bool, remote: Remote)
    requires c in w.sessions && w.sessions[c].state == WaitingForTags
    ensures var o, url := Step(w, Text(c, text, getOk, saveOk, remote)), w.sessions[c].url;
            && o.world.chats == w.chats
            && (!getOk ==> o == Outcome(w, SessionError))
            && (getOk ==>
                  && o.world.calls == w.calls + [AddLink(c, url, Parse(text))]
                  && (o.answer == NowTracking(url) <==> remote == Accepted && Storable(w, c, saveOk))
                  && (o.answer == Unexpected <==> remote == Accepted && !Storable(w, c, saveOk))
                  && (o.answer == AlreadyTracking <==> remote == AlreadySubscribed)
                  && (o.answer == NotRegistered <==> remote == ChatNotRegistered)
                  && (o.answer == NotSupported <==> remote == UrlNotSupported)
                  && (o.answer == TrackFailed <==>
                      remote in {NotSubscribed, ChatNotRegisteredOrLinkNotFound, RemoteFailure})
                  && (if o.answer == NowTracking(url) then HasSession(o.world, c, Idle, "")
                      else HasSession(o.world, c, WaitingForTags, url)))
  {
  }

  lemma UntrackUrlAnswers(w: World, c: ChatId, text: string, getOk: bool, saveOk: bool, remote: Remote)
    requires c in w.sessions && w.sessions[c].state == WaitingForUrlUntrack
    ensures var o, url := Step(w, Text(c, text, getOk, saveOk, remote)), TrimSpace(text);
            && o.world.chats == w.chats
            && (!getOk ==> o == Outcome(w, SessionError))
            && (getOk && url == "" ==> o == Outcome(w, EmptyUrl))
            && (getOk && url != "" ==>
                  && o.world.calls == w.calls + [RemoveLink(c, url)]
                  && (o.answer == Untracked(url) <==> remote == Accepted && Storable(w, c, saveOk))
                  && (o.answer == Unexpected <==> remote == Accepted && !Storable(w, c, saveOk))
                  && (o.answer == NotTracking <==> remote == NotSubscribed)
                  && (o.answer == NotRegisteredOrTracking <==> remote == ChatNotRegisteredOrLinkNotFound)
                  && (o.answer == UntrackFailed <==>
                      remote in {AlreadySubscribed, ChatNotRegistered, UrlNotSupported, RemoteFailure})
                  && (if o.answer == Untracked(url) then HasSession(o.world, c, Idle, "")
                      else o.world.sessions == w.sessions))
  {
  }

  /** A state that the bot does not know is reset. */
  lemma UnknownAnswers(w: World, c: ChatId, text: string, getOk: bool, saveOk: bool, remote: Remote)
    requires c in w.sessions && w.sessions[c].state.Other?
    ensures var o := Step(w, Text(c, text, getOk, saveOk, remote));
            && o.world.calls == w.calls && o.answer == (if getOk then UnknownState else SessionError)
            && (if getOk && Storable(w, c, saveOk) then HasSession(o.world, c, Idle, "") else o.world == w)
  {
  }

  // ---------------------------------------------------------------- whole dialogs

  /**
    The track dialog: a registered chat, whatever dialog it was in, that sends /track, an url and its
    tags makes exactly one remote call, for that url and these tags.  If the link is accepted the
    dialog is over; if not, the chat can send other tags for the same url.
   */
  lemma TrackDialog(w: World, c: ChatId, url: string, tags: string, remote: Remote, unused: Remote)
    requires c in w.chats && TrimSpace(url) != ""
    ensures var asked := Step(w, Track(c, true, true));
            var named := Step(asked.world, Text(c, url, true, true, unused));
            var tagged := Step(named.world, Text(c, tags, true, true, remote));
            && asked.answer == SendUrlToTrack && named.answer == SendTags
            && tagged.world.calls == w.calls + [AddLink(c, TrimSpace(url), Parse(tags))]
            && (remote == Accepted ==>
                  tagged.answer == NowTracking(TrimSpace(url)) && HasSession(tagged.world, c, Idle, ""))
            && (remote != Accepted ==> HasSession(tagged.world, c, WaitingForTags, TrimSpace(url)))
  {
    TrackAnswers(w, c, true, true);
    var asked := Step(w, Track(c, true, true));
    UrlAnswers(asked.world, c, url, true, true, unused);
    var named := Step(asked.world, Text(c, url, true, true, unused));
    TagsAnswers(named.world, c, tags, true, true, remote);
  }

  /** The untrack dialog: one remote call, for the url sent; it stays open until one is accepted. */
  lemma UntrackDialog(w: World, c: ChatId, url: string, remote: Remote)
    requires c in w.chats && TrimSpace(url) != ""
    ensures var asked := Step(w, Untrack(c, true, true));
            var named := Step(asked.world, Text(c, url, true, true, remote));
            && asked.answer == SendUrlToUntrack
            && named.world.calls == w.calls + [RemoveLink(c, TrimSpace(url))]
            && (if remote == Accepted
                then named.answer == Untracked(TrimSpace(url)) && HasSession(named.world, c, Idle, "")
                else HasSession(named.world, c, WaitingForUrlUntrack, ""))
  {
    UntrackAnswers(w, c, true, true);
    UntrackUrlAnswers(Step(w, Untrack(c, true, true)).world, c, url, true, true, remote);
  }

  /** A cancelled dialog is forgotten: the next text is taken for small talk and calls nobody. */
  lemma CancelDialog(w: World, c: ChatId, text: string, saveOk: bool, remote: Remote)
    requires c in w.chats
    ensures var cancelled := Step(w, Cancel(c, true));
            var next := Step(cancelled.world, Text(c, text, true, saveOk, remote));
            next.answer == IdleHint && next.world.calls == w.calls && HasSession(next.world, c, Idle, "")
  {
    CancelAnswers(w, c, true);
    IdleAnswers(Step(w, Cancel(c, true)).world, c, text, true, saveOk, remote);
  }
}
