/**
 * src/message.rs: chat roles, the `Media` tagged union with its two-entry map
 * encoding and the slot-filling decoder of `MediaVisitor::visit_map`, the
 * text-message constructors and `MessageBuilder`.
 *
 * A serialised map is a sequence of entries. Its keys are the five names of the
 * deserialiser's `Field` identifier, and its values are the three JSON shapes the
 * slots read: a string, a `{"url": ...}` object or a list of strings.
 */
module Messages {
  import opened Wrappers

  datatype Role = System | User | Assistant

  datatype Media = Text(text: string) | ImageUrl(url: string) | Video(urls: seq<string>) | VideoUrl(url: string)

  /** `Message::Text { role, content }` and `Message::Media { role, content }`. */
  datatype Message = TextMessage(role: Role, text: string) | MediaMessage(role: Role, media: seq<Media>)

  /** The keys of the map, the deserialiser's `Field` identifier. */
  datatype MediaKey = TypeKey | TextKey | ImageUrlKey | VideoKey | VideoUrlKey

  datatype Value = Str(s: string) | UrlObject(url: string) | StrList(items: seq<string>)

  datatype Entry = Entry(key: MediaKey, value: Value)

  /** The snake-case name of a key. */
  function FieldName(f: MediaKey): string
  {
    match f
    case TypeKey => "type"
    case TextKey => "text"
    case ImageUrlKey => "image_url"
    case VideoKey => "video"
    case VideoUrlKey => "video_url"
  }

  /** The value of the `"type"` entry for each variant. */
  function Tag(m: Media): string
  {
    match m
    case Text(_) => "text"
    case ImageUrl(_) => "image_url"
    case Video(_) => "video"
    case VideoUrl(_) => "video_url"
  }

  /** The tags `visit_map` accepts. */
  const Tags: seq<string> := ["text", "image_url", "video", "video_url"]

  /** `Serialize for Media`: the tag under `"type"`, then the payload under the key named like the tag. */
  function Serialize(m: Media): (entries: seq<Entry>)
    ensures |entries| == 2
    ensures entries[0] == Entry(TypeKey, Str(Tag(m)))
    ensures FieldName(entries[1].key) == Tag(m)
    ensures Tag(m) in Tags
  {
    match m
    case Text(t) => [Entry(TypeKey, Str("text")), Entry(TextKey, Str(t))]
    case ImageUrl(u) => [Entry(TypeKey, Str("image_url")), Entry(ImageUrlKey, UrlObject(u))]
    case Video(us) => [Entry(TypeKey, Str("video")), Entry(VideoKey, StrList(us))]
    case VideoUrl(u) => [Entry(TypeKey, Str("video_url")), Entry(VideoUrlKey, UrlObject(u))]
  }

  datatype DeError =
    | DuplicateField(field: string)
    | MissingField(field: string)
    | UnknownVariant(variant: string, expected: seq<string>)
    | InvalidType

  /** The four locals of `visit_map`; `image_url` and `video_url` share `url`. */
  datatype Slots = Slots(ty: Option<string>, text: Option<string>, url: Option<string>, urls: Option<seq<string>>)

  const Empty: Slots := Slots(None, None, None, None)

  /** Whether the slot a key writes to already holds a value. */
  predicate SlotFilled(s: Slots, k: MediaKey)
  {
    match k
    case TypeKey => s.ty.Some?
    case TextKey => s.text.Some?
    case ImageUrlKey => s.url.Some?
    case VideoKey => s.urls.Some?
    case VideoUrlKey => s.url.Some?
  }

  /** Whether two keys write to the same slot. */
  predicate SameSlot(k: MediaKey, k': MediaKey)
  {
    k == k' || (k in {ImageUrlKey, VideoUrlKey} && k' in {ImageUrlKey, VideoUrlKey})
  }

  /** `map.next_value()` read as a string, a `{url}` object or a list; any other shape is a type error. */
  function AsString(v: Value): Result<string, DeError>
  {
    match v case Str(s) => Ok(s) case _ => Err(InvalidType)
  }

  function AsUrl(v: Value): Result<string, DeError>
  {
    match v case UrlObject(u) => Ok(u) case _ => Err(InvalidType)
  }

  function AsList(v: Value): Result<seq<string>, DeError>
  {
    match v case StrList(us) => Ok(us) case _ => Err(InvalidType)
  }

  /** Whether a value has the shape the key's slot reads. */
  predicate Fits(k: MediaKey, v: Value)
  {
    match k
    case TypeKey => v.Str?
    case TextKey => v.Str?
    case ImageUrlKey => v.UrlObject?
    case VideoKey => v.StrList?
    case VideoUrlKey => v.UrlObject?
  }

  /**
   * One iteration of the key loop. A key whose slot is already filled fails as a
   * duplicate before its value is read; otherwise the value is read into the slot,
   * or fails as a type error when it has the wrong shape. The other slots keep
   * their values.
   */
  function Fill(s: Slots, e: Entry): (r: Result<Slots, DeError>)
    ensures SlotFilled(s, e.key) ==> r == Err(DuplicateField(FieldName(e.key)))
    ensures !SlotFilled(s, e.key) && !Fits(e.key, e.value) ==> r == Err(InvalidType)
    ensures r.Ok? <==> !SlotFilled(s, e.key) && Fits(e.key, e.value)
    ensures r.Ok? && e.key == TypeKey ==> r.value == s.(ty := Some(e.value.s))
    ensures r.Ok? && e.key == TextKey ==> r.value == s.(text := Some(e.value.s))
    ensures r.Ok? && (e.key == ImageUrlKey || e.key == VideoUrlKey) ==> r.value == s.(url := Some(e.value.url))
    ensures r.Ok? && e.key == VideoKey ==> r.value == s.(urls := Some(e.value.items))
    ensures r.Ok? ==> forall k :: SlotFilled(r.value, k) <==> SlotFilled(s, k) || SameSlot(e.key, k)
  {
    if SlotFilled(s, e.key) then Err(DuplicateField(FieldName(e.key)))
    else
      match e.key
      case TypeKey =>
        (match AsString(e.value) case Ok(v) => Ok(s.(ty := Some(v))) case Err(err) => Err(err))
      case TextKey =>
        (match AsString(e.value) case Ok(v) => Ok(s.(text := Some(v))) case Err(err) => Err(err))
      case ImageUrlKey =>
        (match AsUrl(e.value) case Ok(v) => Ok(s.(url := Some(v))) case Err(err) => Err(err))
      case VideoKey =>
        (match AsList(e.value) case Ok(v) => Ok(s.(urls := Some(v))) case Err(err) => Err(err))
      case VideoUrlKey =>
        (match AsUrl(e.value) case Ok(v) => Ok(s.(url := Some(v))) case Err(err) => Err(err))
  }

  /** The key loop over the entries, in order, stopping at the first error: a duplicate or a type error. */
  function FillAll(s: Slots, entries: seq<Entry>): (r: Result<Slots, DeError>)
    ensures r.Err? ==> r.error.DuplicateField? || r.error == InvalidType
    ensures r.Err? ==> exists i :: 0 <= i < |entries| && (r.error == InvalidType || r.error == DuplicateField(FieldName(entries[i].key)))
    decreases |entries|
  {
    if entries == [] then Ok(s)
    else
      match Fill(s, entries[0])
      case Err(e) => Err(e)
      case Ok(s') => FillAll(s', entries[1..])
  }

  /** Whether the slot a tag names holds its payload. */
  predicate PayloadPresent(s: Slots, tag: string)
  {
    (tag == "text" && s.text.Some?) || (tag in {"image_url", "video_url"} && s.url.Some?) || (tag == "video" && s.urls.Some?)
  }

  /**
   * The end of `visit_map`: `type` must be present and name a known variant
   * whose slot holds a payload; an unknown tag is reported with `expected`.
   */
  function Finish(s: Slots, expected: seq<string>): (r: Result<Media, DeError>)
    ensures s.ty.None? ==> r == Err(MissingField("type"))
    ensures s.ty.Some? && s.ty.value !in Tags ==> r == Err(UnknownVariant(s.ty.value, expected))
    ensures s.ty.Some? && s.ty.value in Tags && !PayloadPresent(s, s.ty.value) ==> r == Err(MissingField(s.ty.value))
    ensures r.Ok? <==> s.ty.Some? && s.ty.value in Tags && PayloadPresent(s, s.ty.value)
    ensures r.Ok? ==> Tag(r.value) == s.ty.value
    ensures r.Ok? && s.ty.value == "text" ==> r.value == Text(s.text.value)
    ensures r.Ok? && s.ty.value == "image_url" ==> r.value == ImageUrl(s.url.value)
    ensures r.Ok? && s.ty.value == "video" ==> r.value == Video(s.urls.value)
    ensures r.Ok? && s.ty.value == "video_url" ==> r.value == VideoUrl(s.url.value)
  {
    match s.ty
    case None => Err(MissingField("type"))
    case Some(t) =>
      if t == "text" then
        (match s.text case Some(v) => Ok(Text(v)) case None => Err(MissingField("text")))
      else if t == "image_url" then
        (match s.url case Some(v) => Ok(ImageUrl(v)) case None => Err(MissingField("image_url")))
      else if t == "video" then
        (match s.urls case Some(v) => Ok(Video(v)) case None => Err(MissingField("video")))
      else if t == "video_url" then
        (match s.url case Some(v) => Ok(VideoUrl(v)) case None => Err(MissingField("video_url")))
      else Err(UnknownVariant(t, expected))
  }

  /** The variant list `visit_map` reports for an unknown tag, as written: it leaves out `text`. */
  const ListedVariants: seq<string> := ["image_url", "video", "video_url"]

  /**
   * The decoder as written. It gives what the corrected decoder gives, except that
   * an unknown tag is reported with the shorter variant list.
   */
  function DeserializeAsWritten(entries: seq<Entry>): (r: Result<Media, DeError>)
    ensures !(Deserialize(entries).Err? && Deserialize(entries).error.UnknownVariant?) ==> r == Deserialize(entries)
    ensures Deserialize(entries).Err? && Deserialize(entries).error.UnknownVariant? ==>
      r == Err(UnknownVariant(Deserialize(entries).error.variant, ListedVariants))
  {
    match FillAll(Empty, entries)
    case Err(e) => Err(e)
    case Ok(s) => Finish(s, ListedVariants)
  }

  /** The decoder with the unknown-variant error listing every accepted tag. */
  function Deserialize(entries: seq<Entry>): (r: Result<Media, DeError>)
    ensures r.Ok? ==> Tag(r.value) in Tags
    ensures r.Err? && r.error.UnknownVariant? ==> r.error.variant !in Tags && r.error.expected == Tags
  {
    match FillAll(Empty, entries)
    case Err(e) => Err(e)
    case Ok(s) => Finish(s, Tags)
  }

  /** `MediaVisitor::visit_map`: a loop over the keys filling four optional slots, with early returns. */
  method VisitMap(entries: seq<Entry>) returns (r: Result<Media, DeError>)
    ensures r == DeserializeAsWritten(entries)
  {
    var ty: Option<string> := None;
    var text: Option<string> := None;
    var url: Option<string> := None;
    var urls: Option<seq<string>> := None;
    var i := 0;
    while i < |entries|
      invariant 0 <= i <= |entries|
      invariant FillAll(Empty, entries) == FillAll(Slots(ty, text, url, urls), entries[i..])
    {
      var key, value := entries[i].key, entries[i].value;
      assert entries[i..][0] == entries[i] && entries[i..][1..] == entries[i + 1..];
      match key {
        case TypeKey =>
          if ty.Some? {
            return Err(DuplicateField("type"));
          }
          if !value.Str? {
            return Err(InvalidType);
          }
          ty := Some(value.s);
        case TextKey =>
          if text.Some? {
            return Err(DuplicateField("text"));
          }
          if !value.Str? {
            return Err(InvalidType);
          }
          text := Some(value.s);
        case ImageUrlKey =>
          if url.Some? {
            return Err(DuplicateField("image_url"));
          }
          if !value.UrlObject? {
            return Err(InvalidType);
          }
          url := Some(value.url);
        case VideoKey =>
          if urls.Some? {
            return Err(DuplicateField("video"));
          }
          if !value.StrList? {
            return Err(InvalidType);
          }
          urls := Some(value.items);
        case VideoUrlKey =>
          if url.Some? {
            return Err(DuplicateField("video_url"));
          }
          if !value.UrlObject? {
            return Err(InvalidType);
          }
          url := Some(value.url);
      }
      i := i + 1;
    }
    r := Finish(Slots(ty, text, url, urls), ListedVariants);
  }

  /** The key loop over one or two entries. */
  lemma FillAllShort(s: Slots, a: Entry, b: Entry)
    ensures FillAll(s, [a]) == Fill(s, a)
    ensures FillAll(s, [a, b]) == match Fill(s, a) case Err(e) => Err(e) case Ok(t) => Fill(t, b)
  {
    assert [a][1..] == [];
    assert [a, b][1..] == [b];
    match Fill(s, a) {
      case Err(e) =>
      case Ok(t) => assert FillAll(t, [b]) == Fill(t, b) by { assert [b][1..] == []; }
    }
  }

  /** Decoding the encoding of any `Media` gives it back. */
  lemma RoundTrip(m: Media)
    ensures Deserialize(Serialize(m)) == Ok(m)
    ensures DeserializeAsWritten(Serialize(m)) == Ok(m)
  {
    FillAllShort(Empty, Serialize(m)[0], Serialize(m)[1]);
    assert Serialize(m) == [Serialize(m)[0], Serialize(m)[1]];
  }

  /** After a successful key loop, a slot is filled exactly when it was before or some entry wrote to it. */
  lemma {:induction false} FillAllSlots(s: Slots, entries: seq<Entry>)
    requires FillAll(s, entries).Ok?
    ensures forall k :: SlotFilled(FillAll(s, entries).value, k) <==>
      SlotFilled(s, k) || exists i :: 0 <= i < |entries| && SameSlot(entries[i].key, k)
    decreases |entries|
  {
    if entries != [] {
      var s' := Fill(s, entries[0]).value;
      FillAllSlots(s', entries[1..]);
      forall k ensures SlotFilled(FillAll(s, entries).value, k) <==>
        SlotFilled(s, k) || exists i :: 0 <= i < |entries| && SameSlot(entries[i].key, k)
      {
        if exists i :: 0 <= i < |entries| && SameSlot(entries[i].key, k) {
          var i :| 0 <= i < |entries| && SameSlot(entries[i].key, k);
          if i > 0 {
            assert entries[1..][i - 1] == entries[i];
          }
        }
        if exists i :: 0 <= i < |entries[1..]| && SameSlot(entries[1..][i].key, k) {
          var i :| 0 <= i < |entries[1..]| && SameSlot(entries[1..][i].key, k);
          assert entries[i + 1] == entries[1..][i];
        }
      }
    }
  }

  /** A successful key loop saw no two keys that share a slot, and none whose slot was already filled. */
  lemma {:induction false} FillAllOkHasNoRepeat(s: Slots, entries: seq<Entry>)
    requires FillAll(s, entries).Ok?
    ensures forall i :: 0 <= i < |entries| ==> !SlotFilled(s, entries[i].key)
    ensures forall i, j :: 0 <= i < j < |entries| ==> !SameSlot(entries[i].key, entries[j].key)
    decreases |entries|
  {
    if entries != [] {
      var s' := Fill(s, entries[0]).value;
      FillAllOkHasNoRepeat(s', entries[1..]);
      forall i | 0 <= i < |entries| ensures !SlotFilled(s, entries[i].key) {
        if i > 0 {
          assert entries[i] == entries[1..][i - 1];
        }
      }
      forall i, j | 0 <= i < j < |entries| ensures !SameSlot(entries[i].key, entries[j].key) {
        assert entries[j] == entries[1..][j - 1];
        if i > 0 {
          assert entries[i] == entries[1..][i - 1];
        }
      }
    }
  }

  /** The key loop over a concatenation continues from the slots the first part left. */
  lemma {:induction false} FillAllAppend(s: Slots, a: seq<Entry>, b: seq<Entry>)
    ensures FillAll(s, a + b) == match FillAll(s, a) case Err(e) => Err(e) case Ok(t) => FillAll(t, b)
    decreases |a|
  {
    if a == [] {
      assert a + b == b;
    } else {
      assert (a + b)[0] == a[0];
      assert (a + b)[1..] == a[1..] + b;
      match Fill(s, a[0]) {
        case Err(e) =>
        case Ok(s') => FillAllAppend(s', a[1..], b);
      }
    }
  }

  /**
   * The first key whose slot an earlier key already filled fails as a duplicate,
   * named by the later key, whatever follows it.
   */
  lemma FirstRepeatIsDuplicate(entries: seq<Entry>, j: nat)
    requires j < |entries|
    requires FillAll(Empty, entries[..j]).Ok?
    requires exists i :: 0 <= i < j && SameSlot(entries[i].key, entries[j].key)
    ensures Deserialize(entries) == Err(DuplicateField(FieldName(entries[j].key)))
    ensures DeserializeAsWritten(entries) == Err(DuplicateField(FieldName(entries[j].key)))
  {
    var i :| 0 <= i < j && SameSlot(entries[i].key, entries[j].key);
    assert entries == entries[..j] + entries[j..];
    FillAllAppend(Empty, entries[..j], entries[j..]);
    FillAllSlots(Empty, entries[..j]);
    assert entries[..j][i] == entries[i];
    assert SameSlot(entries[j].key, entries[..j][i].key);
    var t := FillAll(Empty, entries[..j]).value;
    assert SlotFilled(t, entries[j].key);
    assert entries[j..][0] == entries[j];
  }

  /** Without a `"type"` key, decoding fails; if every key was read, it fails with missing-field `type`. */
  lemma MissingTypeFails(entries: seq<Entry>)
    requires forall i :: 0 <= i < |entries| ==> entries[i].key != TypeKey
    ensures Deserialize(entries).Err?
    ensures FillAll(Empty, entries).Ok? ==> Deserialize(entries) == Err(MissingField("type"))
    ensures DeserializeAsWritten(entries).Err?
    ensures FillAll(Empty, entries).Ok? ==> DeserializeAsWritten(entries) == Err(MissingField("type"))
  {
    if FillAll(Empty, entries).Ok? {
      FillAllSlots(Empty, entries);
      assert !SlotFilled(FillAll(Empty, entries).value, TypeKey);
    }
  }

  /** A map that holds both url keys fails as a duplicate, whichever comes first. */
  lemma BothUrlKeysAreDuplicate(t: Value, u: string, v: string)
    ensures Deserialize([Entry(TypeKey, t), Entry(ImageUrlKey, UrlObject(u)), Entry(VideoUrlKey, UrlObject(v))]).Err?
    ensures Deserialize([Entry(ImageUrlKey, UrlObject(u)), Entry(VideoUrlKey, UrlObject(v))]) == Err(DuplicateField("video_url"))
    ensures Deserialize([Entry(VideoUrlKey, UrlObject(v)), Entry(ImageUrlKey, UrlObject(u))]) == Err(DuplicateField("image_url"))
    ensures DeserializeAsWritten([Entry(TypeKey, t), Entry(ImageUrlKey, UrlObject(u)), Entry(VideoUrlKey, UrlObject(v))]).Err?
    ensures DeserializeAsWritten([Entry(ImageUrlKey, UrlObject(u)), Entry(VideoUrlKey, UrlObject(v))]) == Err(DuplicateField("video_url"))
    ensures DeserializeAsWritten([Entry(VideoUrlKey, UrlObject(v)), Entry(ImageUrlKey, UrlObject(u))]) == Err(DuplicateField("image_url"))
  {
    FillAllShort(Empty, Entry(ImageUrlKey, UrlObject(u)), Entry(VideoUrlKey, UrlObject(v)));
    FillAllShort(Empty, Entry(VideoUrlKey, UrlObject(v)), Entry(ImageUrlKey, UrlObject(u)));
    var gs := [Entry(TypeKey, t), Entry(ImageUrlKey, UrlObject(u)), Entry(VideoUrlKey, UrlObject(v))];
    assert gs[1..] == [Entry(ImageUrlKey, UrlObject(u)), Entry(VideoUrlKey, UrlObject(v))];
    match Fill(Empty, gs[0]) {
      case Err(e) =>
      case Ok(s1) =>
        FillAllShort(s1, Entry(ImageUrlKey, UrlObject(u)), Entry(VideoUrlKey, UrlObject(v)));
    }
  }

  /** Because the url slot is shared, each url tag accepts the other url key's payload. */
  lemma SharedUrlSlot(u: string)
    ensures Deserialize([Entry(TypeKey, Str("image_url")), Entry(VideoUrlKey, UrlObject(u))]) == Ok(ImageUrl(u))
    ensures Deserialize([Entry(TypeKey, Str("video_url")), Entry(ImageUrlKey, UrlObject(u))]) == Ok(VideoUrl(u))
    ensures DeserializeAsWritten([Entry(TypeKey, Str("image_url")), Entry(VideoUrlKey, UrlObject(u))]) == Ok(ImageUrl(u))
    ensures DeserializeAsWritten([Entry(TypeKey, Str("video_url")), Entry(ImageUrlKey, UrlObject(u))]) == Ok(VideoUrl(u))
  {
    FillAllShort(Empty, Entry(TypeKey, Str("image_url")), Entry(VideoUrlKey, UrlObject(u)));
    FillAllShort(Empty, Entry(TypeKey, Str("video_url")), Entry(ImageUrlKey, UrlObject(u)));
  }

  /** A known tag whose payload key is missing fails with missing-field for that tag. */
  lemma EmptyPayloadSlotFails(m: Media)
    ensures Deserialize([Serialize(m)[0]]) == Err(MissingField(Tag(m)))
    ensures DeserializeAsWritten([Serialize(m)[0]]) == Err(MissingField(Tag(m)))
  {
    FillAllShort(Empty, Serialize(m)[0], Serialize(m)[1]);
  }

  /** An unknown tag fails with unknown-variant naming the tag and every accepted tag. */
  lemma UnknownTagFails(tag: string, rest: seq<Entry>)
    requires tag !in Tags
    requires FillAll(Empty, [Entry(TypeKey, Str(tag))] + rest).Ok?
    ensures Deserialize([Entry(TypeKey, Str(tag))] + rest) == Err(UnknownVariant(tag, Tags))
    ensures forall m: Media :: Tag(m) in Deserialize([Entry(TypeKey, Str(tag))] + rest).error.expected
  {
    var es := [Entry(TypeKey, Str(tag))] + rest;
    FillAllSlots(Empty, es);
    FillAllOkHasNoRepeat(Empty, es);
    assert es[0].key == TypeKey;
    var s := FillAll(Empty, es).value;
    assert es[1..] == rest;
    assert FillAll(Empty, es) == FillAll(Empty.(ty := Some(tag)), rest);
    FillAllKeepsType(Empty.(ty := Some(tag)), rest);
  }

  /** A successful key loop that starts with `type` set keeps it. */
  lemma {:induction false} FillAllKeepsType(s: Slots, entries: seq<Entry>)
    requires s.ty.Some? && FillAll(s, entries).Ok?
    ensures FillAll(s, entries).value.ty == s.ty
    decreases |entries|
  {
    if entries != [] {
      FillAllKeepsType(Fill(s, entries[0]).value, entries[1..]);
    }
  }

  /** As written, an unknown tag's error lists the accepted variants without `text`. */
  lemma ListedVariantsOmitText(rest: seq<Entry>)
    requires FillAll(Empty.(ty := Some("audio")), rest).Ok?
    ensures DeserializeAsWritten([Entry(TypeKey, Str("audio"))] + rest) == Err(UnknownVariant("audio", ListedVariants))
    ensures DeserializeAsWritten(Serialize(Text("")))  == Ok(Text(""))
    ensures "text" !in ListedVariants
  {
    var es := [Entry(TypeKey, Str("audio"))] + rest;
    assert es[1..] == rest;
    FillAllKeepsType(Empty.(ty := Some("audio")), rest);
    RoundTrip(Text(""));
  }

  /** `Message::system`, `Message::user` and `Message::assistant`: a text message with that role. */
  function SystemMessage(content: string): (m: Message)
    ensures m.TextMessage? && m.role == System && m.text == content
  {
    TextMessage(System, content)
  }

  function UserMessage(content: string): (m: Message)
    ensures m.TextMessage? && m.role == User && m.text == content
  {
    TextMessage(User, content)
  }

  function AssistantMessage(content: string): (m: Message)
    ensures m.TextMessage? && m.role == Assistant && m.text == content
  {
    TextMessage(Assistant, content)
  }

  /** `MessageBuilder`: the media pushed so far, in call order. */
  class MessageBuilder {
    var media: seq<Media>

    constructor ()
      ensures media == []
    {
      media := [];
    }

    method Text(content: string)
      modifies this
      ensures media == old(media) + [Media.Text(content)]
    {
      media := media + [Media.Text(content)];
    }

    method ImageUrl(url: string)
      modifies this
      ensures media == old(media) + [Media.ImageUrl(url)]
    {
      media := media + [Media.ImageUrl(url)];
    }

    method Video(urls: seq<string>)
      modifies this
      ensures media == old(media) + [Media.Video(urls)]
    {
      media := media + [Media.Video(urls)];
    }

    method VideoUrl(url: string)
      modifies this
      ensures media == old(media) + [Media.VideoUrl(url)]
    {
      media := media + [Media.VideoUrl(url)];
    }

    /** `build(role)`: a media message holding everything pushed, in order. */
    function Build(role: Role): (m: Message)
      reads this
      ensures m.MediaMessage? && m.role == role && m.media == media
    {
      MediaMessage(role, media)
    }
  }

  /** The builder keeps media in call order: an image, then a question, for the user. */
  method ImageQuestion(url: string, question: string) returns (m: Message)
    ensures m == MediaMessage(User, [ImageUrl(url), Text(question)])
  {
    var b := new MessageBuilder();
    b.ImageUrl(url);
    b.Text(question);
    m := b.Build(User);
  }
}
