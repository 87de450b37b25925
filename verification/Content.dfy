// Content blocks, resource contents and sampling messages: src/protocol.cpp.
module Content {
  import opened Wrappers
  import opened Json

  type int64 = i: int | IsInt64(i)

  datatype Role = User | Assistant

  datatype Annotations = Annotations(audience: Option<seq<Role>>, priority: Option<real>, lastModified: Option<string>)

  datatype Icon = Icon(src: string, mimeType: Option<string>, sizes: Option<string>, theme: Option<string>)

  datatype ResourceContents =
    | TextResource(uri: string, text: string, mimeType: Option<string>)
    | BlobResource(uri: string, blob: string, mimeType: Option<string>)

  datatype Plain =
    | Text(text: string, annotations: Option<Annotations>)
    | Image(data: string, mime: string, annotations: Option<Annotations>)
    | Audio(data: string, mime: string, annotations: Option<Annotations>)
    | Link(uri: string, name: string, title: Option<string>, description: Option<string>, mimeType: Option<string>,
           annotations: Option<Annotations>, size: Option<int64>, icons: Option<seq<Icon>>, meta: Option<Value>)
    | Embedded(resource: ResourceContents, annotations: Option<Annotations>)

  datatype Block =
    | PlainBlock(plain: Plain)
    | ToolUse(id: string, name: string, input: Value, annotations: Option<Annotations>)
    | ToolResult(toolUseId: string, content: seq<Plain>, isError: Option<bool>, annotations: Option<Annotations>)

  datatype SamplingMessage = SamplingMessage(role: Role, content: seq<Block>)

  // -------------------------------------------------------------- objects

  /** A key, and its value if it is written at all. */
  datatype Field = Field(key: string, value: Option<Value>)

  function Build(fields: seq<Field>): map<string, Value> {
    if fields == [] then map[]
    else
      var front, last := Build(fields[..|fields| - 1]), fields[|fields| - 1];
      if last.value.Some? then front[last.key := last.value.value] else front
  }

  predicate DistinctKeys(fields: seq<Field>) {
    forall i, j :: 0 <= i < j < |fields| ==> fields[i].key != fields[j].key
  }

  /** What is read under a key that is written at most once. */
  ghost predicate Reads(j: Value, f: Field) {
    if f.value.Some? then j.Has(f.key) && j.At(f.key) == f.value.value else !j.Has(f.key)
  }

  lemma {:induction false} BuildKeys(fields: seq<Field>, key: string)
    requires forall i :: 0 <= i < |fields| ==> fields[i].key != key
    ensures key !in Build(fields)
  {
    if fields != [] {
      BuildKeys(fields[..|fields| - 1], key);
    }
  }

  lemma {:induction false} BuildReads(fields: seq<Field>, i: nat)
    requires DistinctKeys(fields) && i < |fields|
    ensures Reads(Obj(Build(fields)), fields[i])
  {
    var front := fields[..|fields| - 1];
    if i == |fields| - 1 {
      BuildKeys(front, fields[i].key);
    } else {
      BuildReads(front, i);
    }
  }

  function Sometimes<T>(v: Option<T>, encode: T -> Value): Option<Value> {
    if v.Some? then Some(encode(v.value)) else None
  }

  /** An optional field reads back when its encoding does and is not null. */
  lemma TakeReads<T>(j: Value, key: string, v: Option<T>, encode: T -> Value, decode: Value -> Result<T>)
    requires Reads(j, Field(key, Sometimes(v, encode)))
    requires v.Some? ==> !encode(v.value).Null? && decode(encode(v.value)) == Ok(v.value)
    ensures Take(j, key, decode) == Ok(v)
  {
  }

  // --------------------------------------------------------------- lists

  function EncodeList<T>(xs: seq<T>, encode: T -> Value): Value {
    Arr(seq(|xs|, i requires 0 <= i < |xs| => encode(xs[i])))
  }

  function DecodeItems<T>(items: seq<Value>, decode: Value -> Result<T>): Result<seq<T>> {
    if items == [] then Ok([])
    else
      var first :- decode(items[0]);
      var rest :- DecodeItems(items[1..], decode);
      Ok([first] + rest)
  }

  function DecodeList<T>(j: Value, decode: Value -> Result<T>): Result<seq<T>> {
    if j.Arr? then DecodeItems(j.items, decode) else Err(Shape)
  }

  lemma {:induction false} ListRoundTrip<T>(xs: seq<T>, encode: T -> Value, decode: Value -> Result<T>)
    ensures DecodeList(EncodeList(xs, encode), decode) == Ok(xs)
      <==> forall i :: 0 <= i < |xs| ==> decode(encode(xs[i])) == Ok(xs[i])
  {
    var items := EncodeList(xs, encode).items;
    if xs != [] {
      assert items[1..] == EncodeList(xs[1..], encode).items;
      ListRoundTrip(xs[1..], encode, decode);
      assert forall i :: 1 <= i < |xs| ==> xs[i] == xs[1..][i - 1];
      assert items[0] == encode(xs[0]) && xs == [xs[0]] + xs[1..];
      var first, rest := decode(items[0]), DecodeItems(items[1..], decode);
      if first.Ok? && rest.Ok? {
        var all := [first.value] + rest.value;
        assert all[0] == first.value && all[1..] == rest.value;
        assert all == xs <==> first.value == xs[0] && rest.value == xs[1..];
      }
    }
  }

  // -------------------------------------------------------------- pieces

  function EncodeString(s: string): Value { Str(s) }
  function EncodeReal(r: real): Value { Float(r) }
  function EncodeBool(b: bool): Value { Bool(b) }
  function EncodeInt64(i: int64): Value { Int(i) }

  function DecodeInt64(j: Value): Result<int64> {
    var r := AsInt64(j);
    if r.Ok? then Ok(r.value as int64) else Err(r.fault)
  }

  function EncodeRole(r: Role): Value {
    Str(if r.User? then "user" else "assistant")
  }

  function DecodeRole(j: Value): Result<Role> {
    var s :- AsString(j);
    if s == "user" then Ok(User)
    else if s == "assistant" then Ok(Assistant)
    else Err(Coded(PARSE_ERROR))
  }

  function EncodeRoles(rs: seq<Role>): Value {
    EncodeList(rs, EncodeRole)
  }

  /** An audience that is not an array is passed over. */
  function DecodeAudience(j: Value): Result<Option<seq<Role>>> {
    if j.Has("audience") && j.At("audience").Arr? then
      var rs :- DecodeItems(j.At("audience").items, DecodeRole);
      Ok(Some(rs))
    else Ok(None)
  }

  function AnnotationsFields(a: Annotations): seq<Field> {
    [Field("audience", Sometimes(a.audience, EncodeRoles)),
     Field("priority", Sometimes(a.priority, EncodeReal)),
     Field("lastModified", Sometimes(a.lastModified, EncodeString))]
  }

  function EncodeAnnotations(a: Annotations): Value {
    Obj(Build(AnnotationsFields(a)))
  }

  function DecodeAnnotations(j: Value): Result<Annotations> {
    var audience :- DecodeAudience(j);
    var priority :- Take(j, "priority", AsReal);
    var lastModified :- Take(j, "lastModified", AsString);
    Ok(Annotations(audience, priority, lastModified))
  }

  lemma AudienceReads(j: Value, audience: Option<seq<Role>>)
    requires Reads(j, Field("audience", Sometimes(audience, EncodeRoles)))
    ensures DecodeAudience(j) == Ok(audience)
  {
    if audience.Some? {
      ListRoundTrip(audience.value, EncodeRole, DecodeRole);
    }
  }

  lemma AnnotationsRoundTrip(a: Annotations)
    ensures DecodeAnnotations(EncodeAnnotations(a)) == Ok(a)
  {
    var fs, j := AnnotationsFields(a), EncodeAnnotations(a);
    BuildReads(fs, 0);
    BuildReads(fs, 1);
    BuildReads(fs, 2);
    AudienceReads(j, a.audience);
    TakeReads(j, "priority", a.priority, EncodeReal, AsReal);
    TakeReads(j, "lastModified", a.lastModified, EncodeString, AsString);
  }

  function IconFields(c: Icon): seq<Field> {
    [Field("src", Some(Str(c.src))),
     Field("mimeType", Sometimes(c.mimeType, EncodeString)),
     Field("sizes", Sometimes(c.sizes, EncodeString)),
     Field("theme", Sometimes(c.theme, EncodeString))]
  }

  function EncodeIcon(c: Icon): Value {
    Obj(Build(IconFields(c)))
  }

  function DecodeIcon(j: Value): Result<Icon> {
    var src :- RequireString(j, "src");
    var mimeType :- Take(j, "mimeType", AsString);
    var sizes :- Take(j, "sizes", AsString);
    var theme :- Take(j, "theme", AsString);
    Ok(Icon(src, mimeType, sizes, theme))
  }

  lemma IconRoundTrip(c: Icon)
    ensures DecodeIcon(EncodeIcon(c)) == Ok(c)
  {
    var fs, j := IconFields(c), EncodeIcon(c);
    BuildReads(fs, 0);
    BuildReads(fs, 1);
    BuildReads(fs, 2);
    BuildReads(fs, 3);
    TakeReads(j, "mimeType", c.mimeType, EncodeString, AsString);
    TakeReads(j, "sizes", c.sizes, EncodeString, AsString);
    TakeReads(j, "theme", c.theme, EncodeString, AsString);
  }

  function EncodeIcons(cs: seq<Icon>): Value {
    EncodeList(cs, EncodeIcon)
  }

  function DecodeIcons(j: Value): Result<seq<Icon>> {
    DecodeList(j, DecodeIcon)
  }

  lemma IconsRoundTrip(cs: seq<Icon>)
    ensures DecodeIcons(EncodeIcons(cs)) == Ok(cs)
  {
    ListRoundTrip(cs, EncodeIcon, DecodeIcon);
    forall i | 0 <= i < |cs| ensures DecodeIcon(EncodeIcon(cs[i])) == Ok(cs[i]) {
      IconRoundTrip(cs[i]);
    }
  }

  function ResourceFields(c: ResourceContents): seq<Field> {
    [Field("uri", Some(Str(c.uri))),
     Field("text", if c.TextResource? then Some(Str(c.text)) else None),
     Field("blob", if c.BlobResource? then Some(Str(c.blob)) else None),
     Field("mimeType", Sometimes(c.mimeType, EncodeString))]
  }

  function EncodeResource(c: ResourceContents): Value {
    Obj(Build(ResourceFields(c)))
  }

  /** The member present decides; "text" is looked for first. */
  function DecodeResource(j: Value): Result<ResourceContents> {
    if j.Has("text") then
      var uri :- RequireString(j, "uri");
      var text :- RequireString(j, "text");
      var mimeType :- Take(j, "mimeType", AsString);
      Ok(TextResource(uri, text, mimeType))
    else if j.Has("blob") then
      var uri :- RequireString(j, "uri");
      var blob :- RequireString(j, "blob");
      var mimeType :- Take(j, "mimeType", AsString);
      Ok(BlobResource(uri, blob, mimeType))
    else Err(Coded(PARSE_ERROR))
  }

  lemma ResourceRoundTrip(c: ResourceContents)
    ensures DecodeResource(EncodeResource(c)) == Ok(c)
  {
    var fs, j := ResourceFields(c), EncodeResource(c);
    BuildReads(fs, 0);
    BuildReads(fs, 1);
    BuildReads(fs, 2);
    BuildReads(fs, 3);
    TakeReads(j, "mimeType", c.mimeType, EncodeString, AsString);
  }

  // ---------------------------------------------------------------- tags

  datatype Tag = TText | TImage | TAudio | TLink | TResource | TToolUse | TToolResult

  function TagName(t: Tag): string {
    match t
    case TText => "text"
    case TImage => "image"
    case TAudio => "audio"
    case TLink => "resource_link"
    case TResource => "resource"
    case TToolUse => "tool_use"
    case TToolResult => "tool_result"
  }

  function TagOf(s: string): Option<Tag> {
    if s == "text" then Some(TText)
    else if s == "image" then Some(TImage)
    else if s == "audio" then Some(TAudio)
    else if s == "resource_link" then Some(TLink)
    else if s == "resource" then Some(TResource)
    else if s == "tool_use" then Some(TToolUse)
    else if s == "tool_result" then Some(TToolResult)
    else None
  }

  lemma TagRoundTrip(t: Tag)
    ensures TagOf(TagName(t)) == Some(t)
  {
  }

  // -------------------------------------------------------- plain blocks

  function NotesField(a: Option<Annotations>): Field {
    Field("annotations", Sometimes(a, EncodeAnnotations))
  }

  function DecodeNotes(j: Value): Result<Option<Annotations>> {
    Take(j, "annotations", DecodeAnnotations)
  }

  lemma NotesRead(j: Value, a: Option<Annotations>)
    requires Reads(j, NotesField(a))
    ensures DecodeNotes(j) == Ok(a)
  {
    if a.Some? {
      AnnotationsRoundTrip(a.value);
    }
    TakeReads(j, "annotations", a, EncodeAnnotations, DecodeAnnotations);
  }

  function TypeField(t: Tag): Field {
    Field("type", Some(Str(TagName(t))))
  }

  function PlainTag(p: Plain): Tag {
    match p
    case Text(_, _) => TText
    case Image(_, _, _) => TImage
    case Audio(_, _, _) => TAudio
    case Link(_, _, _, _, _, _, _, _, _) => TLink
    case Embedded(_, _) => TResource
  }

  function LinkFields(p: Plain): seq<Field>
    requires p.Link?
  {
    [TypeField(TLink),
     Field("uri", Some(Str(p.uri))),
     Field("name", Some(Str(p.name))),
     Field("title", Sometimes(p.title, EncodeString)),
     Field("description", Sometimes(p.description, EncodeString)),
     Field("mimeType", Sometimes(p.mimeType, EncodeString)),
     NotesField(p.annotations),
     Field("size", Sometimes(p.size, EncodeInt64)),
     Field("icons", Sometimes(p.icons, EncodeIcons)),
     Field("_meta", p.meta)]
  }

  function PlainFields(p: Plain): seq<Field> {
    match p
    case Text(text, a) => [TypeField(TText), Field("text", Some(Str(text))), NotesField(a)]
    case Image(data, mime, a) =>
      [TypeField(TImage), Field("data", Some(Str(data))), Field("mimeType", Some(Str(mime))), NotesField(a)]
    case Audio(data, mime, a) =>
      [TypeField(TAudio), Field("data", Some(Str(data))), Field("mimeType", Some(Str(mime))), NotesField(a)]
    case Link(_, _, _, _, _, _, _, _, _) => LinkFields(p)
    case Embedded(r, a) => [TypeField(TResource), Field("resource", Some(EncodeResource(r))), NotesField(a)]
  }

  function EncodePlain(p: Plain): Value {
    Obj(Build(PlainFields(p)))
  }

  function DecodeLink(j: Value): Result<Plain> {
    var uri :- RequireString(j, "uri");
    var name :- RequireString(j, "name");
    var title :- Take(j, "title", AsString);
    var description :- Take(j, "description", AsString);
    var mimeType :- Take(j, "mimeType", AsString);
    var annotations :- DecodeNotes(j);
    var size :- Take(j, "size", DecodeInt64);
    var icons :- Take(j, "icons", DecodeIcons);
    Ok(Link(uri, name, title, description, mimeType, annotations, size, icons, TakeJson(j, "_meta")))
  }

  /** The part after the dispatch on "type". */
  function DecodePlainAs(t: Tag, j: Value): Result<Plain> {
    match t
    case TText =>
      var text :- RequireString(j, "text");
      var a :- DecodeNotes(j);
      Ok(Text(text, a))
    case TImage =>
      var data :- RequireString(j, "data");
      var mime :- RequireString(j, "mimeType");
      var a :- DecodeNotes(j);
      Ok(Image(data, mime, a))
    case TAudio =>
      var data :- RequireString(j, "data");
      var mime :- RequireString(j, "mimeType");
      var a :- DecodeNotes(j);
      Ok(Audio(data, mime, a))
    case TLink => DecodeLink(j)
    case TResource =>
      var raw :- if j.Has("resource") then Ok(j.At("resource")) else Err(Shape);
      var r :- DecodeResource(raw);
      var a :- DecodeNotes(j);
      Ok(Embedded(r, a))
    case _ => Err(Coded(PARSE_ERROR))
  }

  function DecodeTag(j: Value): Result<Tag> {
    var s :- RequireString(j, "type");
    if TagOf(s).Some? then Ok(TagOf(s).value) else Err(Coded(PARSE_ERROR))
  }

  function DecodePlain(j: Value): Result<Plain> {
    var t :- DecodeTag(j);
    DecodePlainAs(t, j)
  }

  lemma TagReads(j: Value, t: Tag)
    requires Reads(j, TypeField(t))
    ensures DecodeTag(j) == Ok(t)
  {
    TagRoundTrip(t);
  }

  /** No raw JSON field holds an explicit null. */
  predicate CleanPlain(p: Plain) {
    p.Link? ==> p.meta != Some(Null)
  }

  lemma LinkKeys(p: Plain)
    requires p.Link?
    ensures DistinctKeys(LinkFields(p))
  {
    var keys := ["type", "uri", "name", "title", "description", "mimeType", "annotations", "size", "icons", "_meta"];
    assert forall i :: 0 <= i < 10 ==> LinkFields(p)[i].key == keys[i];
    assert forall i :: 0 <= i < 10 ==> |keys[i]| > 2;
    assert forall i, j :: 0 <= i < j < 10 ==>
      |keys[i]| != |keys[j]| || keys[i][0] != keys[j][0] || keys[i][1] != keys[j][1] || keys[i][2] != keys[j][2];
  }

  lemma LinkReads(p: Plain, i: nat)
    requires p.Link? && i < 10
    ensures Reads(EncodePlain(p), LinkFields(p)[i])
  {
    LinkKeys(p);
    BuildReads(LinkFields(p), i);
  }

  lemma LinkText(p: Plain)
    requires p.Link?
    ensures var j := EncodePlain(p);
      && Take(j, "title", AsString) == Ok(p.title)
      && Take(j, "description", AsString) == Ok(p.description)
      && Take(j, "mimeType", AsString) == Ok(p.mimeType)
  {
    var j := EncodePlain(p);
    LinkReads(p, 3);
    TakeReads(j, "title", p.title, EncodeString, AsString);
    LinkReads(p, 4);
    TakeReads(j, "description", p.description, EncodeString, AsString);
    LinkReads(p, 5);
    TakeReads(j, "mimeType", p.mimeType, EncodeString, AsString);
  }

  lemma LinkRest(p: Plain)
    requires p.Link?
    ensures var j := EncodePlain(p);
      && DecodeNotes(j) == Ok(p.annotations)
      && Take(j, "size", DecodeInt64) == Ok(p.size)
      && Take(j, "icons", DecodeIcons) == Ok(p.icons)
  {
    var j := EncodePlain(p);
    LinkReads(p, 6);
    NotesRead(j, p.annotations);
    LinkReads(p, 7);
    TakeReads(j, "size", p.size, EncodeInt64, DecodeInt64);
    LinkReads(p, 8);
    if p.icons.Some? {
      IconsRoundTrip(p.icons.value);
    }
    TakeReads(j, "icons", p.icons, EncodeIcons, DecodeIcons);
  }

  lemma LinkRoundTrip(p: Plain)
    requires p.Link?
    ensures DecodeLink(EncodePlain(p)) == Ok(p) <==> CleanPlain(p)
  {
    LinkReads(p, 1);
    LinkReads(p, 2);
    LinkText(p);
    LinkRest(p);
    LinkReads(p, 9);
  }

  lemma MediaRoundTrip(p: Plain)
    requires p.Text? || p.Image? || p.Audio?
    ensures DecodePlainAs(PlainTag(p), EncodePlain(p)) == Ok(p)
  {
    var fs, j := PlainFields(p), EncodePlain(p);
    BuildReads(fs, 1);
    BuildReads(fs, 2);
    if !p.Text? {
      BuildReads(fs, 3);
    }
    NotesRead(j, p.annotations);
  }

  lemma EmbeddedRoundTrip(p: Plain)
    requires p.Embedded?
    ensures DecodePlainAs(TResource, EncodePlain(p)) == Ok(p)
  {
    var fs, j := PlainFields(p), EncodePlain(p);
    BuildReads(fs, 1);
    BuildReads(fs, 2);
    ResourceRoundTrip(p.resource);
    NotesRead(j, p.annotations);
  }

  lemma PlainTagged(p: Plain)
    ensures DecodeTag(EncodePlain(p)) == Ok(PlainTag(p))
  {
    if p.Link? {
      LinkReads(p, 0);
    } else {
      BuildReads(PlainFields(p), 0);
    }
    TagReads(EncodePlain(p), PlainTag(p));
  }

  /** The blocks of a tool result may not be tool blocks themselves, and a block of
      an unknown type, or of none, is refused: all as parse errors. */
  lemma PlainRefuses(j: Value)
    requires j.Has("type") ==> j.At("type").Str?
    ensures !j.Has("type") || TagOf(j.At("type").s) in {None, Some(TToolUse), Some(TToolResult)} ==>
      DecodePlain(j) == Err(Coded(PARSE_ERROR))
    ensures !j.Has("type") || TagOf(j.At("type").s).None? ==> DecodeBlock(j) == Err(Coded(PARSE_ERROR))
  {
  }

  /** A plain block parses back to itself, if and only if it has no explicit null. */
  lemma PlainRoundTrip(p: Plain)
    ensures DecodePlain(EncodePlain(p)) == Ok(p) <==> CleanPlain(p)
  {
    PlainTagged(p);
    if p.Link? {
      LinkRoundTrip(p);
    } else if p.Embedded? {
      EmbeddedRoundTrip(p);
    } else {
      MediaRoundTrip(p);
    }
  }

  // ---------------------------------------------------------- all blocks

  function EncodePlains(ps: seq<Plain>): Value {
    EncodeList(ps, EncodePlain)
  }

  function ToolUseFields(b: Block): seq<Field>
    requires b.ToolUse?
  {
    [TypeField(TToolUse),
     Field("id", Some(Str(b.id))),
     Field("name", Some(Str(b.name))),
     Field("input", Some(b.input)),
     NotesField(b.annotations)]
  }

  function ToolResultFields(b: Block): seq<Field>
    requires b.ToolResult?
  {
    [TypeField(TToolResult),
     Field("toolUseId", Some(Str(b.toolUseId))),
     Field("content", Some(EncodePlains(b.content))),
     Field("isError", Sometimes(b.isError, EncodeBool)),
     NotesField(b.annotations)]
  }

  function EncodeBlock(b: Block): (j: Value)
    ensures j.Obj?
  {
    match b
    case PlainBlock(p) => EncodePlain(p)
    case ToolUse(_, _, _, _) => Obj(Build(ToolUseFields(b)))
    case ToolResult(_, _, _, _) => Obj(Build(ToolResultFields(b)))
  }

  function DecodeToolUse(j: Value): Result<Block> {
    var id :- RequireString(j, "id");
    var name :- RequireString(j, "name");
    var input :- Require(j, "input");
    var a :- DecodeNotes(j);
    Ok(ToolUse(id, name, input, a))
  }

  function DecodeToolResult(j: Value): Result<Block> {
    var id :- RequireString(j, "toolUseId");
    var raw :- if j.Has("content") then Ok(j.At("content")) else Err(Shape);
    var content :- DecodeList(raw, DecodePlain);
    var isError :- Take(j, "isError", AsBool);
    var a :- DecodeNotes(j);
    Ok(ToolResult(id, content, isError, a))
  }

  function DecodeBlock(j: Value): Result<Block> {
    var t :- DecodeTag(j);
    match t
    case TToolUse => DecodeToolUse(j)
    case TToolResult => DecodeToolResult(j)
    case _ =>
      var p :- DecodePlainAs(t, j);
      Ok(PlainBlock(p))
  }

  predicate Clean(b: Block) {
    match b
    case PlainBlock(p) => CleanPlain(p)
    case ToolUse(_, _, _, _) => true
    case ToolResult(_, content, _, _) => forall i :: 0 <= i < |content| ==> CleanPlain(content[i])
  }

  lemma ToolUseRoundTrip(b: Block)
    requires b.ToolUse?
    ensures DecodeBlock(EncodeBlock(b)) == Ok(b)
  {
    var fs, j := ToolUseFields(b), EncodeBlock(b);
    BuildReads(fs, 0);
    TagReads(j, TToolUse);
    BuildReads(fs, 1);
    BuildReads(fs, 2);
    BuildReads(fs, 3);
    BuildReads(fs, 4);
    NotesRead(j, b.annotations);
  }

  lemma PlainsRoundTrip(ps: seq<Plain>)
    ensures DecodeList(EncodePlains(ps), DecodePlain) == Ok(ps) <==> forall i :: 0 <= i < |ps| ==> CleanPlain(ps[i])
  {
    ListRoundTrip(ps, EncodePlain, DecodePlain);
    forall i | 0 <= i < |ps| ensures DecodePlain(EncodePlain(ps[i])) == Ok(ps[i]) <==> CleanPlain(ps[i]) {
      PlainRoundTrip(ps[i]);
    }
  }

  lemma ToolResultRoundTrip(b: Block)
    requires b.ToolResult?
    ensures DecodeBlock(EncodeBlock(b)) == Ok(b) <==> Clean(b)
  {
    var fs, j := ToolResultFields(b), EncodeBlock(b);
    BuildReads(fs, 0);
    TagReads(j, TToolResult);
    BuildReads(fs, 1);
    BuildReads(fs, 2);
    PlainsRoundTrip(b.content);
    BuildReads(fs, 3);
    TakeReads(j, "isError", b.isError, EncodeBool, AsBool);
    BuildReads(fs, 4);
    NotesRead(j, b.annotations);
  }

  /** Any content block, nested tool results and embedded resources included,
      parses back to itself if and only if no raw field in it is an explicit null. */
  lemma BlockRoundTrip(b: Block)
    ensures DecodeBlock(EncodeBlock(b)) == Ok(b) <==> Clean(b)
  {
    match b
    case PlainBlock(p) =>
      PlainRoundTrip(p);
      PlainTagged(p);
    case ToolUse(_, _, _, _) => ToolUseRoundTrip(b);
    case ToolResult(_, _, _, _) => ToolResultRoundTrip(b);
  }

  // ------------------------------------------------------------ messages

  function ContentToJson(blocks: seq<Block>): Value {
    if |blocks| == 1 then EncodeBlock(blocks[0]) else EncodeList(blocks, EncodeBlock)
  }

  function MessageFields(m: SamplingMessage): seq<Field> {
    [Field("role", Some(EncodeRole(m.role))), Field("content", Some(ContentToJson(m.content)))]
  }

  function EncodeMessage(m: SamplingMessage): Value {
    Obj(Build(MessageFields(m)))
  }

  /** One block is accepted bare. */
  function ContentFromJson(j: Value): Result<seq<Block>> {
    if j.Arr? then DecodeItems(j.items, DecodeBlock)
    else
      var b :- DecodeBlock(j);
      Ok([b])
  }

  function DecodeMessage(j: Value): Result<SamplingMessage> {
    var rawRole :- if j.Has("role") then Ok(j.At("role")) else Err(Shape);
    var role :- DecodeRole(rawRole);
    var raw :- if j.Has("content") then Ok(j.At("content")) else Err(Shape);
    var content :- ContentFromJson(raw);
    Ok(SamplingMessage(role, content))
  }

  lemma ContentRoundTrip(blocks: seq<Block>)
    ensures ContentFromJson(ContentToJson(blocks)) == Ok(blocks) <==> forall i :: 0 <= i < |blocks| ==> Clean(blocks[i])
  {
    forall i | 0 <= i < |blocks| ensures DecodeBlock(EncodeBlock(blocks[i])) == Ok(blocks[i]) <==> Clean(blocks[i]) {
      BlockRoundTrip(blocks[i]);
    }
    if |blocks| == 1 {
      assert blocks == [blocks[0]];
    } else {
      ListRoundTrip(blocks, EncodeBlock, DecodeBlock);
    }
  }

  lemma MessageReads(m: SamplingMessage)
    ensures var j := EncodeMessage(m);
      && j.Has("role") && j.At("role") == EncodeRole(m.role)
      && j.Has("content") && j.At("content") == ContentToJson(m.content)
  {
    BuildReads(MessageFields(m), 0);
    BuildReads(MessageFields(m), 1);
  }

  lemma RoleRoundTrip(r: Role)
    ensures DecodeRole(EncodeRole(r)) == Ok(r)
  {
  }

  /** One block is written bare, any other number as an array of as many. */
  lemma ContentShape(m: SamplingMessage)
    ensures var j := EncodeMessage(m);
      && j.Has("content")
      && (|m.content| == 1 ==> j.At("content") == EncodeBlock(m.content[0]) && j.At("content").Obj?)
      && (|m.content| != 1 ==> j.At("content").Arr? && |j.At("content").items| == |m.content|)
  {
    MessageReads(m);
  }

  /** One block as an object, otherwise an array: either way the message parses
      back to itself, if and only if its blocks are clean. */
  lemma MessageRoundTrip(m: SamplingMessage)
    ensures DecodeMessage(EncodeMessage(m)) == Ok(m) <==> forall i :: 0 <= i < |m.content| ==> Clean(m.content[i])
  {
    MessageReads(m);
    RoleRoundTrip(m.role);
    ContentRoundTrip(m.content);
  }

  // ------------------------------------------- what is accepted, and as what

  predicate Absent(j: Value, key: string) {
    !j.Has(key) || j.At(key).Null?
  }

  /** Under the key stands this text, or nothing where there is none. */
  predicate Says(j: Value, key: string, v: Option<string>) {
    if Absent(j, key) then v.None? else v.Some? && j.At(key) == Str(v.value)
  }

  predicate SaysText(j: Value, key: string, s: string) {
    j.Has(key) && j.At(key) == Str(s)
  }

  predicate Each<T>(items: seq<Value>, xs: seq<T>, means: (Value, T) -> bool) {
    |items| == |xs| && forall i :: 0 <= i < |xs| ==> means(items[i], xs[i])
  }

  predicate IsRole(j: Value, r: Role) {
    match r
    case User => j == Str("user")
    case Assistant => j == Str("assistant")
  }

  predicate IsNumber(j: Value, r: real) {
    (j.Float? && j.r == r) || (j.Int? && j.i as real == r)
  }

  predicate IsAnnotations(j: Value, a: Annotations) {
    && (if j.Has("audience") && j.At("audience").Arr?
        then a.audience.Some? && Each(j.At("audience").items, a.audience.value, IsRole) else a.audience.None?)
    && (if Absent(j, "priority") then a.priority.None?
        else a.priority.Some? && IsNumber(j.At("priority"), a.priority.value))
    && Says(j, "lastModified", a.lastModified)
  }

  predicate IsIcon(j: Value, c: Icon) {
    && SaysText(j, "src", c.src)
    && Says(j, "mimeType", c.mimeType) && Says(j, "sizes", c.sizes) && Says(j, "theme", c.theme)
  }

  /** What has a text is text, whatever else it has. */
  predicate IsResource(j: Value, c: ResourceContents) {
    && SaysText(j, "uri", c.uri) && Says(j, "mimeType", c.mimeType)
    && if c.TextResource? then SaysText(j, "text", c.text) else !j.Has("text") && SaysText(j, "blob", c.blob)
  }

  predicate HasNotes(j: Value, a: Option<Annotations>) {
    if Absent(j, "annotations") then a.None? else a.Some? && IsAnnotations(j.At("annotations"), a.value)
  }

  predicate IsLink(j: Value, p: Plain)
    requires p.Link?
  {
    && SaysText(j, "uri", p.uri) && SaysText(j, "name", p.name)
    && Says(j, "title", p.title) && Says(j, "description", p.description) && Says(j, "mimeType", p.mimeType)
    && (if Absent(j, "size") then p.size.None?
        else p.size.Some? && AsInt64(j.At("size")) == Ok(p.size.value))
    && (if Absent(j, "icons") then p.icons.None?
        else j.At("icons").Arr? && p.icons.Some? && Each(j.At("icons").items, p.icons.value, IsIcon))
    && (if Absent(j, "_meta") then p.meta.None? else p.meta == Some(j.At("_meta")))
  }

  predicate IsPlain(j: Value, p: Plain) {
    && HasNotes(j, p.annotations)
    && match p
       case Text(text, _) => SaysText(j, "type", "text") && SaysText(j, "text", text)
       case Image(data, mime, _) =>
         SaysText(j, "type", "image") && SaysText(j, "data", data) && SaysText(j, "mimeType", mime)
       case Audio(data, mime, _) =>
         SaysText(j, "type", "audio") && SaysText(j, "data", data) && SaysText(j, "mimeType", mime)
       case Link(_, _, _, _, _, _, _, _, _) => SaysText(j, "type", "resource_link") && IsLink(j, p)
       case Embedded(r, _) =>
         SaysText(j, "type", "resource") && j.Has("resource") && IsResource(j.At("resource"), r)
  }

  predicate IsBlock(j: Value, b: Block) {
    match b
    case PlainBlock(p) => IsPlain(j, p)
    case ToolUse(id, name, input, a) =>
      && SaysText(j, "type", "tool_use") && SaysText(j, "id", id) && SaysText(j, "name", name)
      && j.Has("input") && j.At("input") == input && HasNotes(j, a)
    case ToolResult(id, content, isError, a) =>
      && SaysText(j, "type", "tool_result") && SaysText(j, "toolUseId", id)
      && j.Has("content") && j.At("content").Arr? && Each(j.At("content").items, content, IsPlain)
      && (if Absent(j, "isError") then isError.None? else isError.Some? && j.At("isError") == Bool(isError.value))
      && HasNotes(j, a)
  }

  /** A message with one block may have it bare. */
  predicate IsMessage(j: Value, m: SamplingMessage) {
    && j.Has("role") && IsRole(j.At("role"), m.role) && j.Has("content")
    && if j.At("content").Arr? then Each(j.At("content").items, m.content, IsBlock)
       else |m.content| == 1 && IsBlock(j.At("content"), m.content[0])
  }

  lemma {:induction false} ItemsExactly<T(!new)>(items: seq<Value>, xs: seq<T>, decode: Value -> Result<T>,
                                                 means: (Value, T) -> bool)
    requires forall j, x :: j in items ==> (decode(j) == Ok(x) <==> means(j, x))
    ensures DecodeItems(items, decode) == Ok(xs) <==> Each(items, xs, means)
  {
    if items != [] {
      var rest := DecodeItems(items[1..], decode);
      if xs != [] {
        ItemsExactly(items[1..], xs[1..], decode, means);
        assert xs == [xs[0]] + xs[1..];
        EachFirst(items, xs, means);
        if rest.Ok? && decode(items[0]).Ok? {
          var all := [decode(items[0]).value] + rest.value;
          assert all[0] == decode(items[0]).value && all[1..] == rest.value;
        }
      }
    }
  }

  lemma EachFirst<T>(items: seq<Value>, xs: seq<T>, means: (Value, T) -> bool)
    requires items != [] && xs != []
    ensures Each(items, xs, means) <==> means(items[0], xs[0]) && Each(items[1..], xs[1..], means)
  {
    assert forall i :: 1 <= i < |xs| ==> xs[i] == xs[1..][i - 1];
    assert forall i :: 1 <= i < |items| ==> items[i] == items[1..][i - 1];
  }

  lemma RoleExactly(j: Value, r: Role)
    ensures DecodeRole(j) == Ok(r) <==> IsRole(j, r)
  {
  }

  lemma AudienceExactly(j: Value, audience: Option<seq<Role>>)
    ensures DecodeAudience(j) == Ok(audience) <==>
      if j.Has("audience") && j.At("audience").Arr?
      then audience.Some? && Each(j.At("audience").items, audience.value, IsRole) else audience.None?
  {
    if j.Has("audience") && j.At("audience").Arr? && audience.Some? {
      ItemsExactly(j.At("audience").items, audience.value, DecodeRole, IsRole);
    }
  }

  lemma AnnotationsExactly(j: Value, a: Annotations)
    ensures DecodeAnnotations(j) == Ok(a) <==> IsAnnotations(j, a)
  {
    AudienceExactly(j, a.audience);
  }

  lemma IconExactly(j: Value, c: Icon)
    ensures DecodeIcon(j) == Ok(c) <==> IsIcon(j, c)
  {
  }

  lemma ResourceExactly(j: Value, c: ResourceContents)
    ensures DecodeResource(j) == Ok(c) <==> IsResource(j, c)
  {
  }

  lemma NotesExactly(j: Value, a: Option<Annotations>)
    ensures DecodeNotes(j) == Ok(a) <==> HasNotes(j, a)
  {
    if !Absent(j, "annotations") && a.Some? {
      AnnotationsExactly(j.At("annotations"), a.value);
    }
  }

  lemma IconsExactly(j: Value, cs: seq<Icon>)
    ensures DecodeIcons(j) == Ok(cs) <==> j.Arr? && Each(j.items, cs, IsIcon)
  {
    if j.Arr? {
      forall x, c | x in j.items ensures DecodeIcon(x) == Ok(c) <==> IsIcon(x, c) {
        IconExactly(x, c);
      }
      ItemsExactly(j.items, cs, DecodeIcon, IsIcon);
    }
  }

  lemma LinkExactly(j: Value, p: Plain)
    requires p.Link?
    ensures DecodeLink(j) == Ok(p) <==> IsLink(j, p) && HasNotes(j, p.annotations)
  {
    NotesExactly(j, p.annotations);
    if !Absent(j, "icons") && p.icons.Some? {
      IconsExactly(j.At("icons"), p.icons.value);
    }
  }

  lemma TextExactly(j: Value, p: Plain)
    requires p.Text?
    ensures DecodePlain(j) == Ok(p) <==> IsPlain(j, p)
  {
    NotesExactly(j, p.annotations);
  }

  lemma MediaExactly(j: Value, p: Plain)
    requires p.Image? || p.Audio?
    ensures DecodePlain(j) == Ok(p) <==> IsPlain(j, p)
  {
    NotesExactly(j, p.annotations);
  }

  lemma LinkTagged(j: Value, p: Plain)
    requires p.Link?
    ensures DecodePlain(j) == Ok(p) <==> IsPlain(j, p)
  {
    LinkExactly(j, p);
  }

  lemma EmbeddedExactly(j: Value, p: Plain)
    requires p.Embedded?
    ensures DecodePlain(j) == Ok(p) <==> IsPlain(j, p)
  {
    NotesExactly(j, p.annotations);
    if j.Has("resource") {
      ResourceExactly(j.At("resource"), p.resource);
    }
  }

  lemma PlainExactly(j: Value, p: Plain)
    ensures DecodePlain(j) == Ok(p) <==> IsPlain(j, p)
  {
    match p
    case Text(_, _) => TextExactly(j, p);
    case Image(_, _, _) => MediaExactly(j, p);
    case Audio(_, _, _) => MediaExactly(j, p);
    case Link(_, _, _, _, _, _, _, _, _) => LinkTagged(j, p);
    case Embedded(_, _) => EmbeddedExactly(j, p);
  }

  lemma PlainsExactly(j: Value, ps: seq<Plain>)
    ensures DecodeList(j, DecodePlain) == Ok(ps) <==> j.Arr? && Each(j.items, ps, IsPlain)
  {
    if j.Arr? {
      forall x, p | x in j.items ensures DecodePlain(x) == Ok(p) <==> IsPlain(x, p) {
        PlainExactly(x, p);
      }
      ItemsExactly(j.items, ps, DecodePlain, IsPlain);
    }
  }

  lemma ToolUseExactly(j: Value, b: Block)
    requires b.ToolUse?
    ensures DecodeBlock(j) == Ok(b) <==> IsBlock(j, b)
  {
    NotesExactly(j, b.annotations);
  }

  lemma ToolResultExactly(j: Value, b: Block)
    requires b.ToolResult?
    ensures DecodeBlock(j) == Ok(b) <==> IsBlock(j, b)
  {
    NotesExactly(j, b.annotations);
    if j.Has("content") {
      PlainsExactly(j.At("content"), b.content);
    }
  }

  /** A JSON value is accepted as a block if and only if it is written as that block
      may be: key by key, with nothing required but what the block must have. */
  lemma BlockExactly(j: Value, b: Block)
    ensures DecodeBlock(j) == Ok(b) <==> IsBlock(j, b)
  {
    match b
    case PlainBlock(p) => PlainExactly(j, p);
    case ToolUse(_, _, _, _) => ToolUseExactly(j, b);
    case ToolResult(_, _, _, _) => ToolResultExactly(j, b);
  }

  /** And likewise a sampling message. */
  lemma MessageExactly(j: Value, m: SamplingMessage)
    ensures DecodeMessage(j) == Ok(m) <==> IsMessage(j, m)
  {
    if j.Has("content") {
      var raw := j.At("content");
      if raw.Arr? {
        forall x, b | x in raw.items ensures DecodeBlock(x) == Ok(b) <==> IsBlock(x, b) {
          BlockExactly(x, b);
        }
        ItemsExactly(raw.items, m.content, DecodeBlock, IsBlock);
      } else if |m.content| == 1 {
        BlockExactly(raw, m.content[0]);
        assert m.content == [m.content[0]];
      }
    }
  }
}
