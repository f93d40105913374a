/** Messages as the channel sees them. A message is a value once pushed,
    except for its preview's `thumb`, which preview release nulls in place;
    so the preview is an object and the message holds a reference to it. */
module Messages {
  import opened Options

  /** The message types the channel acts on; every other type is `Other`. */
  datatype MsgType = MessageType | Action | Notice | Other(name: string)

  /** A link preview; `thumb` names a cached resource, or is null. */
  class Preview {
    var thumb: Option<string>

    constructor (thumb: Option<string>)
      ensures this.thumb == thumb
    {
      this.thumb := thumb;
    }
  }

  /** `time` is the message date in integer milliseconds since the epoch. */
  datatype Message = Message(
    id: nat,
    msgType: MsgType,
    time: int,
    from: string,
    text: string,
    highlight: bool,
    self: bool,
    preview: Preview?)

  /** JavaScript truthiness of `preview.thumb`: present and non-empty. */
  predicate Truthy(t: Option<string>)
  {
    t.Some? && t.value != ""
  }

  /** The thumb a preview holds after release: a truthy thumb becomes null,
      a falsy one stays as it was. */
  function Released(t: Option<string>): (r: Option<string>)
    ensures !Truthy(r)
    ensures !Truthy(t) ==> r == t
    ensures Truthy(t) ==> r == None
  {
    if Truthy(t) then None else t
  }

  /** Every preview object referenced by a message of `ms`. */
  ghost function PreviewSet(ms: seq<Message>): set<Preview>
  {
    set i | 0 <= i < |ms| && ms[i].preview != null :: ms[i].preview
  }

  /** No two messages of `ms` share a preview object. */
  ghost predicate PreviewsDistinct(ms: seq<Message>)
  {
    forall i, j :: 0 <= i < j < |ms| && ms[i].preview != null ==> ms[i].preview != ms[j].preview
  }

  /** The resource a release of `m` hands to the preview cache, if any. */
  ghost function ThumbOf(m: Message): seq<string>
    reads if m.preview != null then {m.preview} else {}
  {
    if m.preview != null && Truthy(m.preview.thumb) then [m.preview.thumb.value] else []
  }

  /** The resources a release of `ms` hands to the cache, in message order. */
  ghost function Thumbs(ms: seq<Message>): seq<string>
    reads PreviewSet(ms)
  {
    if |ms| == 0 then []
    else
      assert PreviewSet(ms[..|ms| - 1]) <= PreviewSet(ms);
      Thumbs(ms[..|ms| - 1]) + ThumbOf(ms[|ms| - 1])
  }

  lemma {:induction false} NothingToRelease(ms: seq<Message>)
    requires forall p :: p in PreviewSet(ms) ==> !Truthy(p.thumb)
    ensures Thumbs(ms) == []
  {
    if |ms| > 0 {
      assert PreviewSet(ms[..|ms| - 1]) <= PreviewSet(ms);
      NothingToRelease(ms[..|ms| - 1]);
    }
  }

  lemma PrefixPreviews(ms: seq<Message>, k: nat)
    requires k <= |ms|
    ensures PreviewSet(ms[..k]) <= PreviewSet(ms)
    ensures PreviewSet(ms[k..]) <= PreviewSet(ms)
    ensures PreviewsDistinct(ms) ==> PreviewsDistinct(ms[..k]) && PreviewsDistinct(ms[k..])
  {
  }

  /** Messages that own their previews: the previews of a prefix and of the
      rest are disjoint, so releasing one part leaves the other alone. */
  lemma SplitPreviews(ms: seq<Message>, k: nat)
    requires k <= |ms| && PreviewsDistinct(ms)
    ensures PreviewSet(ms[..k]) !! PreviewSet(ms[k..])
  {
  }

  /** Appending a message adds its preview, if any, to the buffer's. */
  lemma AppendPreviews(ms: seq<Message>, m: Message)
    ensures PreviewSet(ms + [m]) == PreviewSet(ms) + (if m.preview != null then {m.preview} else {})
  {
    var s := ms + [m];
    forall p | p in PreviewSet(s) ensures p in PreviewSet(ms) || p == m.preview {
      var i :| 0 <= i < |s| && s[i].preview == p;
      if i < |ms| {
        assert ms[i] == s[i];
      }
    }
    forall p | p in PreviewSet(ms) ensures p in PreviewSet(s) {
      var i :| 0 <= i < |ms| && ms[i].preview == p;
      assert s[i] == ms[i];
    }
    if m.preview != null {
      assert s[|ms|] == m;
    }
  }
}
