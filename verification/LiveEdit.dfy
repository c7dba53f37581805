/** The messages of one live-edited response and what an edit does to them: src/discord/throttler.rs, lines 80-232. */
module LiveEdit {
  import opened Prelude
  import opened Chunker

  const MESSAGE_LIMIT := 2_000

  type Time = int
  type MessageId = nat

  // --- The messages on the wire ---

  /** The tracked message ids, the channel's messages, and the next id the platform will hand out. */
  datatype Wire = Wire(ids: seq<MessageId>, messages: map<MessageId, string>, next: MessageId)

  ghost predicate Sound(wire: Wire) {
    && (forall m :: m in wire.messages ==> m < wire.next)
    && (forall i :: 0 <= i < |wire.ids| ==> wire.ids[i] in wire.messages)
    && (forall i, j :: 0 <= i < j < |wire.ids| ==> wire.ids[i] != wire.ids[j])
  }

  function Preview(content: string, limit: nat): string {
    if limit == 0 then ""
    else if content == "" then ZERO_WIDTH_SPACE
    else if |content| <= limit then content
    else TakeChars(content, if limit >= 2 then limit - 2 else 0).0 + " \U{2026}"
  }

  /**
   * A preview fits its limit but for a limit of one, shows a text that fits whole, and else as much of its start as
   * fits before an ellipsis; an empty text shows as a space without width.
   */
  lemma PreviewFitsExactlyWhen(content: string, limit: nat)
    ensures |Preview(content, limit)| <= limit <==> limit != 1 || |content| <= 1
    ensures content != "" && |content| <= limit ==> Preview(content, limit) == content
    ensures 2 <= limit < |content| ==>
      |Preview(content, limit)| == limit && Preview(content, limit) == content[..limit - 2] + " \U{2026}"
    ensures limit == 1 < |content| ==> Preview(content, limit) == " \U{2026}"
    ensures content == "" && limit > 0 ==> Preview(content, limit) == "\U{200b}"
  {
    assert |ZERO_WIDTH_SPACE| == 1;
    if 1 <= limit < |content| {
      assert Preview(content, limit) == content[..if limit >= 2 then limit - 2 else 0] + " \U{2026}";
    }
  }

  function PreviewEdit(wire: Wire, content: string): Wire {
    if wire.ids == [] then wire else wire.(messages := wire.messages[wire.ids[0] := Preview(content, MESSAGE_LIMIT)])
  }

  /**
   * A non-final edit shows the preview in the first tracked message, if there is one, and leaves every other message.
   */
  lemma PreviewEditShowsOneMessage(wire: Wire, content: string)
    ensures var after := PreviewEdit(wire, content);
      && after.ids == wire.ids && after.next == wire.next
      && (wire.ids != [] ==>
            && wire.ids[0] in after.messages
            && after.messages[wire.ids[0]] == Preview(content, 2_000)
            && (0 < |content| <= 2_000 ==> after.messages[wire.ids[0]] == content))
      && forall m :: (wire.ids != [] && m == wire.ids[0]) ||
           ((m in after.messages <==> m in wire.messages)
            && (m in wire.messages ==> after.messages[m] == wire.messages[m]))
  {
  }

  function EditChunk(wire: Wire, index: nat, chunk: string): Wire {
    if index < |wire.ids| then wire.(messages := wire.messages[wire.ids[index] := chunk])
    else Wire(wire.ids + [wire.next], wire.messages[wire.next := chunk], wire.next + 1)
  }

  function EditChunks(wire: Wire, chunks: seq<string>): Wire {
    if chunks == [] then wire
    else EditChunk(EditChunks(wire, chunks[..|chunks| - 1]), |chunks| - 1, chunks[|chunks| - 1])
  }

  function DropStale(wire: Wire, count: nat): Wire
    requires count <= |wire.ids|
  {
    Wire(wire.ids[..count], wire.messages - (set m | m in wire.ids[count..]), wire.next)
  }

  /** `after` shows `chunks` in its first messages, keeps the ids of `wire`, and touches no other message. */
  ghost predicate Tracks(wire: Wire, chunks: seq<string>, after: Wire) {
    && Sound(after) && after.next >= wire.next
    && |after.ids| == (if |chunks| < |wire.ids| then |wire.ids| else |chunks|)
    && (forall i :: 0 <= i < |wire.ids| ==> after.ids[i] == wire.ids[i])
    && (forall i :: |wire.ids| <= i < |after.ids| ==> after.ids[i] >= wire.next)
    && (forall i :: 0 <= i < |chunks| ==> after.ids[i] in after.messages && after.messages[after.ids[i]] == chunks[i])
    && (forall m :: m in wire.messages && m !in wire.ids ==>
      m in after.messages && after.messages[m] == wire.messages[m])
    && (forall m :: m in after.messages ==> m in wire.messages || m in after.ids)
  }

  lemma EditTracks(wire: Wire, before: seq<string>, mid: Wire, chunk: string)
    requires Sound(wire) && Tracks(wire, before, mid) && |before| < |wire.ids|
    ensures Tracks(wire, before + [chunk], EditChunk(mid, |before|, chunk))
  {
    assert mid.ids[|before|] == wire.ids[|before|];
  }

  lemma SendTracks(wire: Wire, before: seq<string>, mid: Wire, chunk: string)
    requires Sound(wire) && Tracks(wire, before, mid) && |before| >= |wire.ids|
    ensures Tracks(wire, before + [chunk], EditChunk(mid, |before|, chunk))
  {
  }

  lemma {:induction false} EditChunksTracks(wire: Wire, chunks: seq<string>)
    requires Sound(wire)
    ensures Tracks(wire, chunks, EditChunks(wire, chunks))
  {
    if chunks != [] {
      var before, chunk := chunks[..|chunks| - 1], chunks[|chunks| - 1];
      EditChunksTracks(wire, before);
      InitAndLast(chunks);
      if |before| < |wire.ids| {
        EditTracks(wire, before, EditChunks(wire, before), chunk);
      } else {
        SendTracks(wire, before, EditChunks(wire, before), chunk);
      }
    }
  }

  /** Dropping the ids from `count` on takes exactly their messages with it. */
  lemma DropStaleEffect(wire: Wire, count: nat)
    requires Sound(wire) && count <= |wire.ids|
    ensures var after := DropStale(wire, count);
      && Sound(after)
      && (forall i :: 0 <= i < count ==> after.ids[i] == wire.ids[i])
      && (forall i :: count <= i < |wire.ids| ==> wire.ids[i] !in after.messages)
      && (forall m :: m in wire.messages && m !in wire.ids ==> m in after.messages)
      && (forall m :: m in after.messages ==>
            m in wire.messages && after.messages[m] == wire.messages[m] && (m in wire.ids ==> m in after.ids))
  {
    var after := DropStale(wire, count);
    var stale := wire.ids[count..];
    forall i | 0 <= i < count ensures wire.ids[i] !in stale {
    }
    forall i | count <= i < |wire.ids| ensures wire.ids[i] in stale {
      assert stale[i - count] == wire.ids[i];
    }
    forall m | m in after.messages && m in wire.ids ensures m in after.ids {
      var i :| 0 <= i < |wire.ids| && wire.ids[i] == m;
      assert i < count && after.ids[i] == m;
    }
  }

  function FinalEdit(wire: Wire, chunks: seq<string>): Wire
    requires Sound(wire)
  {
    EditChunksTracks(wire, chunks);
    DropStale(EditChunks(wire, chunks), |chunks|)
  }

  /**
   * Right after a final edit the tracked messages are exactly the chunks, in order; messages that were tracked before
   * keep their place, surplus ones are gone, and nothing else in the channel has changed.
   */
  lemma FinalEditShowsTheChunks(wire: Wire, chunks: seq<string>)
    requires Sound(wire)
    ensures var after := FinalEdit(wire, chunks);
      && Sound(after)
      && |after.ids| == |chunks|
      && (forall i :: 0 <= i < |chunks| ==> after.messages[after.ids[i]] == chunks[i])
      && (forall i :: 0 <= i < |chunks| && i < |wire.ids| ==> after.ids[i] == wire.ids[i])
      && (forall i :: |chunks| <= i < |wire.ids| ==> wire.ids[i] !in after.messages)
      && (forall m :: m in wire.messages && m !in wire.ids ==>
        m in after.messages && after.messages[m] == wire.messages[m])
      && (forall m :: m in after.messages ==> m in after.ids || (m in wire.messages && m !in wire.ids))
  {
    EditChunksTracks(wire, chunks);
    var edited := EditChunks(wire, chunks);
    var after := DropStale(edited, |chunks|);
    DropStaleEffect(edited, |chunks|);
    forall m | m in wire.messages && m !in wire.ids ensures m !in edited.ids {
      forall i | 0 <= i < |edited.ids| ensures edited.ids[i] != m {
      }
    }
    forall i | 0 <= i < |wire.ids| ensures wire.ids[i] in edited.ids {
      assert edited.ids[i] == wire.ids[i];
    }
  }

  lemma {:induction false} EditsStep(wire: Wire, chunks: seq<string>, n: nat)
    requires n < |chunks|
    ensures EditChunks(wire, chunks[..n + 1]) == EditChunk(EditChunks(wire, chunks[..n]), n, chunks[n])
  {
    assert chunks[..n + 1][..n] == chunks[..n];
  }

  /** What the mutex of the throttler guards, together with the platform's channel. */
  class EditState {
    var lastEdit: Option<Time>
    var messageIds: seq<MessageId>
    var messages: map<MessageId, string>
    var next: MessageId

    constructor (first: MessageId, content: string)
      ensures Channel() == Wire([first], map[first := content], first + 1) && lastEdit == None
    {
      lastEdit, messageIds, messages, next := None, [first], map[first := content], first + 1;
    }

    ghost function Channel(): Wire
      reads this
    {
      Wire(messageIds, messages, next)
    }

    method SendMessage(content: string) returns (id: MessageId)
      modifies this`messages, this`next
      ensures id == old(next) && next == old(next) + 1 && messages == old(messages)[id := content]
    {
      id, next := next, next + 1;
      messages := messages[id := content];
    }

    /** An intermediate update: the first message shows the preview. */
    method ShowPreview(content: string, now: Time)
      modifies this
      ensures Channel() == PreviewEdit(old(Channel()), content) && lastEdit == Some(now)
    {
      if messageIds != [] {
        messages := messages[messageIds[0] := Preview(content, MESSAGE_LIMIT)];
      }
      lastEdit := Some(now);
    }

    method EditOrSend(chunks: seq<string>)
      modifies this`messageIds, this`messages, this`next
      ensures Channel() == EditChunks(old(Channel()), chunks)
    {
      for index := 0 to |chunks|
        invariant Channel() == EditChunks(old(Channel()), chunks[..index])
      {
        EditsStep(old(Channel()), chunks, index);
        if index < |messageIds| {
          messages := messages[messageIds[index] := chunks[index]];
        } else {
          var id := SendMessage(chunks[index]);
          messageIds := messageIds + [id];
        }
      }
      assert chunks[..|chunks|] == chunks;
    }

    method DeleteStale(count: nat)
      requires count <= |messageIds|
      modifies this`messageIds, this`messages
      ensures Channel() == DropStale(old(Channel()), count)
    {
      var stale := messageIds[count..];
      messageIds := messageIds[..count];
      for k := 0 to |stale|
        invariant messageIds == old(messageIds)[..count]
        invariant messages == old(messages) - set m | m in stale[..k]
      {
        assert stale[..k + 1] == stale[..k] + [stale[k]];
        messages := messages - {stale[k]};
      }
      assert stale[..|stale|] == stale;
    }

    /** A final update: edit, send or delete until the tracked messages are the chunks. */
    method ShowFinal(content: string, paginate: bool, now: Time)
      requires Sound(Channel())
      modifies this
      ensures Sound(Channel()) && lastEdit == Some(now)
      ensures Channel() == FinalEdit(old(Channel()), Paginated(content, MESSAGE_LIMIT, paginate))
    {
      var chunks := ChunkMarkdownPaginated(content, MESSAGE_LIMIT, paginate);
      EditChunksTracks(Channel(), chunks);
      FinalEditShowsTheChunks(Channel(), chunks);
      EditOrSend(chunks);
      DeleteStale(|chunks|);
      lastEdit := Some(now);
    }
  }
}
