/** The content packer (quorum_fullnode_py/types/data.py): the Activity Streams
    payloads the client posts as feed trxs, the image list attached to them under
    the per-trx size budget, and the appconfig items that initialise a group. */
module Packer {
  import opened Optional
  import opened Text
  import opened Exceptions
  import opened Values

  /** Total image budget of one trx, in kilobytes (a chain limit). */
  const ImageMaxSizeKb: nat := 200
  /** At most this many images go into one trx (a client convention). */
  const ImageMaxNum: nat := 4

  /** What MIME sniffing makes of a byte string. */
  datatype FileKind = FileKind(extension: string, mime: string)

  /** The world the packer reads: the file system, base64, MIME sniffing, the image
      compressors (the resize loop and gifsicle) and the fresh `{uuid}-{date}`
      stamp of the n-th generated file name. */
  datatype Media = Media(
    pathExists: string -> bool,
    isFile: string -> bool,
    read: string -> seq<byte>,
    fileSize: string -> nat,
    b64decode: string -> Option<seq<byte>>,
    b64encode: seq<byte> -> string,
    guess: seq<byte> -> Option<FileKind>,
    shrink: (seq<byte>, nat) -> seq<byte>,
    shrinkGif: (string, nat) -> seq<byte>,
    stamp: nat -> string)

  function Min(a: nat, b: nat): nat { if a <= b then a else b }

  /* --------------------------------------------------------- file access */

  /** `filetype.guess(b)` followed by an attribute access, which fails on None. */
  function Guess(m: Media, b: seq<byte>): (r: Result<FileKind>)
    ensures r.Ok? <==> m.guess(b).Some?
    ensures r.Ok? ==> r.value == m.guess(b).value
  {
    match m.guess(b)
    case Some(kind) => Ok(kind)
    case None => Err(Unexpected("'NoneType' object has no attribute 'extension'"))
  }

  /** `read_file_to_bytes`: `check_file` first, then the file's bytes. */
  function ReadFile(m: Media, path: string): (r: Result<seq<byte>>)
    ensures !m.pathExists(path) ==> r == Err(ParamValue(path + " file is not exists."))
    ensures m.pathExists(path) && !m.isFile(path) ==> r == Err(ParamValue(path + " is not a file."))
    ensures r.Ok? <==> m.pathExists(path) && m.isFile(path)
  {
    if !m.pathExists(path) then Err(ParamValue(path + " file is not exists."))
    else if !m.isFile(path) then Err(ParamValue(path + " is not a file."))
    else Ok(m.read(path))
  }

  /** `_get_filebytes`: a string naming an existing path is read from disk (and
      flagged as a file), any other string is base64-decoded, bytes pass through
      untouched; lists and dicts are refused with a ParamTypeError, and values
      without a length fail on `len` before any of that. */
  function GetFileBytes(m: Media, v: Value): (r: Result<(seq<byte>, bool)>)
    ensures v.Bytes? ==> r == Ok((v.data, false))
    ensures v.List? || v.Dict? ==> r.Err? && r.failure.Raised? && r.failure.error.cls == ParamTypeError
    ensures v.Null? || v.Bool? || v.Int? ==> r.Err?
    ensures r.Ok? && r.value.1 ==> v.Str? && m.pathExists(v.s) && m.isFile(v.s) && r.value.0 == m.read(v.s)
    ensures r.Ok? && !r.value.1 ==> v.Bytes? || (v.Str? && !m.pathExists(v.s) && m.b64decode(v.s) == Some(r.value.0))
  {
    match v
    case Str(s) =>
      if m.pathExists(s) then
        var b :- ReadFile(m, s);
        Ok((b, true))
      else
        (match m.b64decode(s)
         case Some(b) => Ok((b, false))
         case None => Err(Unexpected("binascii.Error: Incorrect padding")))
    case Bytes(d) => Ok((d, false))
    case List(items) =>
      Err(ParamType("not support for type: <class 'list'> and length: " + IntToString(|items|)))
    case Dict(fields) =>
      Err(ParamType("not support for type: <class 'dict'> and length: " + IntToString(|fields|)))
    case _ => Err(Unexpected("object has no len()"))
  }

  /** `_filename_init`: the base name of a file path, else a fresh stamp with the
      sniffed extension. */
  function FilenameInit(m: Media, x: Value, stamp: string): (r: Result<string>)
    ensures r.Ok? <==> (GetFileBytes(m, x).Ok? &&
      (GetFileBytes(m, x).value.1 || m.guess(GetFileBytes(m, x).value.0).Some?))
    ensures r.Ok? ==> (GetFileBytes(m, x).Ok? &&
      if GetFileBytes(m, x).value.1 then r.value == Basename(x.s)
      else r.value == stamp + "." + m.guess(GetFileBytes(m, x).value.0).value.extension)
  {
    var fb :- GetFileBytes(m, x);
    if fb.1 then Ok(Basename(x.s))
    else
      var kind :- Guess(m, fb.0);
      Ok(stamp + "." + kind.extension)
  }

  /* --------------------------------------------------------- compression */

  /** `_zip_image_bytes`: a zero budget means the default; the extension is sniffed
      first (so unknown bytes fail); an image already under budget comes back
      unchanged, a larger one goes through the compressor. */
  function ZipImageBytes(m: Media, b: seq<byte>, kb: nat): (r: Result<seq<byte>>)
    ensures r.Ok? <==> m.guess(b).Some?
    ensures r.Ok? && |b| / 1024 < (if kb == 0 then ImageMaxSizeKb else kb) ==> r.value == b
  {
    var budget := if kb == 0 then ImageMaxSizeKb else kb;
    var _ :- Guess(m, b);
    if |b| / 1024 < budget then Ok(b) else Ok(m.shrink(b, budget))
  }

  /** `zip_gif` on a file known to exist: read as it is when under budget, else
      the gifsicle loop's output. */
  function ZipGif(m: Media, path: string, kb: nat): (r: Result<seq<byte>>)
    requires m.pathExists(path) && m.isFile(path)
    ensures r.Ok?
    ensures m.fileSize(path) < (if kb == 0 then ImageMaxSizeKb else kb) * 1024 ==> r.value == m.read(path)
  {
    var budget := if kb == 0 then ImageMaxSizeKb else kb;
    if m.fileSize(path) < budget * 1024 then ReadFile(m, path)
    else Ok(m.shrinkGif(path, budget))
  }

  /** `_zip_image`: a GIF given as a file path goes to the GIF compressor, anything
      else to the byte compressor. A failure inside the guarded block is logged and
      then surfaces as the unbound result variable. */
  function ZipImage(m: Media, x: Value, kb: nat): (r: Result<seq<byte>>)
    ensures GetFileBytes(m, x).Err? ==> r == Err(GetFileBytes(m, x).failure)
    ensures r.Ok? && !GetFileBytes(m, x).value.1 ==> r == ZipImageBytes(m, GetFileBytes(m, x).value.0, kb)
  {
    var fb :- GetFileBytes(m, x);
    var zipped :=
      match m.guess(fb.0)
      case None => Err(Unexpected("'NoneType' object has no attribute 'extension'"))
      case Some(kind) =>
        if kind.extension == "gif" && fb.1 then ZipGif(m, x.s, kb) else ZipImageBytes(m, fb.0, kb);
    if zipped.Ok? then zipped
    else Err(Unexpected("local variable 'img_bytes' referenced before assignment"))
  }

  /** `_group_icon`: the icon, compressed to the default budget, as a
      `data:<mime>;base64,<payload>` URI. */
  function GroupIconUri(m: Media, icon: Value): (r: Result<string>)
    ensures r.Ok? <==> ZipImage(m, icon, ImageMaxSizeKb).Ok? && m.guess(ZipImage(m, icon, ImageMaxSizeKb).value).Some?
  {
    var b :- ZipImage(m, icon, ImageMaxSizeKb);
    var kind :- Guess(m, b);
    Ok("data:" + kind.mime + ";base64," + m.b64encode(b))
  }

  /** The icon is a data URI that gives back the sniffed media type and the base64
      of the compressed image (a media type holds no ';'). */
  lemma GroupIconIsDataUri(m: Media, icon: Value)
    requires GroupIconUri(m, icon).Ok?
    ensures var b := ZipImage(m, icon, ImageMaxSizeKb).value;
      ';' !in m.guess(b).value.mime ==>
        ParseDataUri(GroupIconUri(m, icon).value) == Some((m.guess(b).value.mime, m.b64encode(b)))
  {
    var b := ZipImage(m, icon, ImageMaxSizeKb).value;
    if ';' !in m.guess(b).value.mime {
      DataUriRoundTrip(m.guess(b).value.mime, m.b64encode(b));
    }
  }

  /** Reads a base64 data URI back into its media type and its payload. */
  function ParseDataUri(s: string): Option<(string, string)>
  {
    var scheme := "data:";
    var marker := ";base64,";
    if |s| >= |scheme| && s[..|scheme|] == scheme then
      var rest := s[|scheme|..];
      var mime := TakeUntil(rest, ';');
      var tail := rest[|mime|..];
      if |tail| >= |marker| && tail[..|marker|] == marker then Some((mime, tail[|marker|..]))
      else None
    else None
  }

  /** The data URI gives back the media type and the payload it was built from,
      provided the media type holds no ';'. */
  lemma DataUriRoundTrip(mime: string, payload: string)
    requires ';' !in mime
    ensures ParseDataUri("data:" + mime + ";base64," + payload) == Some((mime, payload))
  {
    var s := "data:" + mime + ";base64," + payload;
    var rest := mime + (";base64," + payload);
    assert s[|"data:"|..] == rest;
    TakeUntilConcat(mime, ";base64," + payload, ';');
    assert rest[|mime|..] == ";base64," + payload;
  }

  /* -------------------------------------------------------------- images */

  /** One entry of the image list. */
  function ImageEntry(name: Value, mediaType: Value, content: Value): (r: Value)
    ensures r.Dict? && Keys(r.fields) == ["name", "mediaType", "content"]
    ensures Find(r.fields, "content") == Some(content)
  {
    var fields := [("name", name), ("mediaType", mediaType), ("content", content)];
    FindEntry(fields, 2);
    Dict([("name", name), ("mediaType", mediaType), ("content", content)])
  }

  /** The per-image budget when `n` images are given: the trx budget shared by the
      images that are kept. */
  function ImageBudget(n: nat): (kb: nat)
    requires n >= 1
    ensures kb * Min(n, ImageMaxNum) <= ImageMaxSizeKb
    ensures kb >= ImageMaxSizeKb / ImageMaxNum
  {
    ImageMaxSizeKb / Min(n, ImageMaxNum)
  }

  /** One pass of `_pack_images`' loop. A dict is taken as an already packed image:
      its content must be non-empty and is kept as given, while the defaults for
      its name and media type are worked out (and can fail) even when the dict
      supplies them. Anything else is named, compressed to `kb`, sniffed and
      base64-encoded. */
  function PackImage(m: Media, x: Value, kb: nat, stamp: string): (r: Result<Value>)
    ensures r.Ok? ==> r.value.Dict? && Keys(r.value.fields) == ["name", "mediaType", "content"]
    ensures x.Dict? && !Truthy(GetOr(x.fields, "content", Null)) ==>
      r == Err(ParamValue("image  type: <class 'dict'> ,content got null "))
    ensures x.Dict? && r.Ok? ==> Find(r.value.fields, "content") == Find(x.fields, "content")
    ensures !x.Dict? && r.Ok? ==> (ZipImage(m, x, kb).Ok?
      && Find(r.value.fields, "content") == Some(Str(m.b64encode(ZipImage(m, x, kb).value))))
  {
    if x.Dict? then
      var icontent := GetOr(x.fields, "content", Null);
      if !Truthy(icontent) then Err(ParamValue("image  type: <class 'dict'> ,content got null "))
      else
        var fb :- GetFileBytes(m, icontent);
        var defaultName :- FilenameInit(m, Bytes(fb.0), stamp);
        var iname := GetOr(x.fields, "name", Str(defaultName));
        var kind :- Guess(m, fb.0);
        var imediaType := GetOr(x.fields, "mediaType", Str(kind.mime));
        Ok(ImageEntry(iname, imediaType, icontent))
    else
      var iname :- FilenameInit(m, x, stamp);
      var b :- ZipImage(m, x, kb);
      var kind :- Guess(m, b);
      Ok(ImageEntry(Str(iname), Str(kind.mime), Str(m.b64encode(b))))
  }

  /** An image given as raw bytes that already fits its budget is attached as the
      base64 of exactly those bytes, under a freshly stamped name. */
  lemma SmallImageUnchanged(m: Media, b: seq<byte>, kb: nat, stamp: string)
    requires kb > 0 && |b| / 1024 < kb && m.guess(b).Some?
    ensures PackImage(m, Bytes(b), kb, stamp) == Ok(ImageEntry(
      Str(stamp + "." + m.guess(b).value.extension), Str(m.guess(b).value.mime), Str(m.b64encode(b))))
  {
    assert Join([stamp, m.guess(b).value.extension], '.') == stamp + "." + m.guess(b).value.extension;
  }

  /** How the loop packs the i-th image when each gets `kb` kilobytes. */
  function ImagePacker(m: Media, kb: nat): (Value, nat) -> Result<Value>
  {
    (x: Value, i: nat) => PackImage(m, x, kb, m.stamp(i))
  }

  /** The images `xs` packed in order by `pack`, the i-th as number `from + i`;
      the first failure stops the loop and is the result. */
  function PackEach(pack: (Value, nat) -> Result<Value>, xs: seq<Value>, from: nat): (r: Result<seq<Value>>)
    ensures r.Ok? <==> forall i :: 0 <= i < |xs| ==> pack(xs[i], from + i).Ok?
    ensures r.Ok? ==> (|r.value| == |xs|
      && forall i :: 0 <= i < |xs| ==> pack(xs[i], from + i) == Ok(r.value[i]))
    ensures forall j :: (0 <= j < |xs| && pack(xs[j], from + j).Err?
        && (forall i :: 0 <= i < j ==> pack(xs[i], from + i).Ok?)) ==>
      r == Err(pack(xs[j], from + j).failure)
    decreases |xs|
  {
    if xs == [] then Ok([])
    else
      var first :- pack(xs[0], from);
      var rest :- PackEach(pack, xs[1..], from + 1);
      Ok([first] + rest)
  }

  /** `_pack_images`: the budget is shared by at most four images, only the first
      four are packed, and an empty list divides by zero. */
  function PackImages(m: Media, images: seq<Value>): (r: Result<seq<Value>>)
    ensures images == [] ==> r.Err?
    ensures images != [] ==>
      r == PackEach(ImagePacker(m, ImageBudget(|images|)), images[..Min(|images|, ImageMaxNum)], 0)
  {
    if images == [] then Err(Unexpected("integer division or modulo by zero"))
    else PackEach(ImagePacker(m, ImageBudget(|images|)), images[..Min(|images|, ImageMaxNum)], 0)
  }

  /** What `_pack_images` promises: as many entries as images kept (at most four),
      in input order, each with exactly the keys name, mediaType and content, the
      whole budget shared among them, and a dict's content passed through. */
  lemma PackImagesShape(m: Media, images: seq<Value>)
    requires PackImages(m, images).Ok?
    ensures var r := PackImages(m, images).value;
      && |r| == Min(|images|, ImageMaxNum) <= ImageMaxNum
      && ImageBudget(|images|) * |r| <= ImageMaxSizeKb
      && (forall i :: 0 <= i < |r| ==> r[i].Dict? && Keys(r[i].fields) == ["name", "mediaType", "content"])
      && (forall i :: 0 <= i < |r| && images[i].Dict? ==> Find(r[i].fields, "content") == Find(images[i].fields, "content"))
  {
    var r := PackImages(m, images).value;
    var xs := images[..Min(|images|, ImageMaxNum)];
    var kb := ImageBudget(|images|);
    var pack := ImagePacker(m, kb);
    forall i | 0 <= i < |r|
      ensures r[i].Dict? && Keys(r[i].fields) == ["name", "mediaType", "content"]
      ensures images[i].Dict? ==> Find(r[i].fields, "content") == Find(images[i].fields, "content")
    {
      assert pack(xs[i], i) == Ok(r[i]);
      assert pack(xs[i], i) == PackImage(m, xs[i], kb, m.stamp(i));
      assert xs[i] == images[i];
    }
  }

  /** A dict among the images kept whose content is empty makes the whole list fail. */
  lemma EmptyDictImageRejected(m: Media, images: seq<Value>, j: nat)
    requires j < |images| && j < ImageMaxNum
    requires images[j].Dict? && !Truthy(GetOr(images[j].fields, "content", Null))
    ensures PackImages(m, images).Err?
  {
    var xs := images[..Min(|images|, ImageMaxNum)];
    var kb := ImageBudget(|images|);
    var pack := ImagePacker(m, kb);
    assert xs[j] == images[j];
    assert pack(xs[j], j) == PackImage(m, xs[j], kb, m.stamp(j));
    assert pack(xs[j], j).Err?;
  }

  /** A loop that packed every image in order has built what `PackEach` builds. */
  lemma PackEachCollects(pack: (Value, nat) -> Result<Value>, xs: seq<Value>, imgs: seq<Value>)
    requires |imgs| == |xs| && forall k :: 0 <= k < |xs| ==> pack(xs[k], k) == Ok(imgs[k])
    ensures PackEach(pack, xs, 0) == Ok(imgs)
  {
    var all := PackEach(pack, xs, 0);
    assert forall k :: 0 <= k < |xs| ==> pack(xs[k], 0 + k) == Ok(imgs[k]);
    assert all.Ok?;
    assert |all.value| == |imgs|;
    forall k | 0 <= k < |xs| ensures all.value[k] == imgs[k] {
      assert pack(xs[k], 0 + k) == Ok(all.value[k]);
    }
    assert all.value == imgs;
  }

  /** A loop that stopped at the first image that failed has the failure
      `PackEach` reports. */
  lemma PackEachStops(pack: (Value, nat) -> Result<Value>, xs: seq<Value>, i: nat)
    requires i < |xs| && pack(xs[i], i).Err? && forall k :: 0 <= k < i ==> pack(xs[k], k).Ok?
    ensures PackEach(pack, xs, 0) == Err(pack(xs[i], i).failure)
  {
    var from: nat := 0;
    assert forall k :: 0 <= k < i ==> pack(xs[k], from + k).Ok?;
    assert 0 <= i < |xs| && pack(xs[i], from + i).Err?;
    assert PackEach(pack, xs, from) == Err(pack(xs[i], from + i).failure);
  }

  /** `_pack_images`' loop, appending one packed image per pass. */
  method PackImagesLoop(m: Media, images: seq<Value>) returns (r: Result<seq<Value>>)
    ensures r == PackImages(m, images)
  {
    if images == [] {
      return Err(Unexpected("integer division or modulo by zero"));
    }
    var pack := ImagePacker(m, ImageBudget(|images|));
    var xs := images[..Min(|images|, ImageMaxNum)];
    var imgs: seq<Value> := [];
    var i := 0;
    while i < |xs|
      invariant 0 <= i <= |xs| && |imgs| == i
      invariant forall k :: 0 <= k < i ==> pack(xs[k], k) == Ok(imgs[k])
    {
      var entry := pack(xs[i], i);
      if entry.Err? {
        PackEachStops(pack, xs, i);
        return Err(entry.failure);
      }
      imgs := imgs + [entry.value];
      i := i + 1;
    }
    PackEachCollects(pack, xs, imgs);
    r := Ok(imgs);
  }

  /* ------------------------------------------------------------- content */

  /** The keys of a packed note, in insertion order. */
  function NoteKeys(withImage: bool, withName: bool): seq<string>
  {
    ["type", "content"] + (if withImage then ["image"] else []) + (if withName then ["name"] else []) + ["id"]
  }

  /** `_pack_content`: a Note with its text, its images when there are any, its
      title when given, and the given post id or else a fresh `uuid`. Empty or
      missing text is refused even when images are given, so the second check
      never fires. */
  function PackContent(m: Media, content: Option<string>, images: seq<Value>, name: Option<string>,
                       postId: Option<string>, uuid: string): (r: Result<seq<(string, Value)>>)
    ensures !TruthyStr(content) ==> r == Err(ParamValue("content is empty"))
    ensures TruthyStr(content) ==> (r.Ok? <==> images == [] || PackImages(m, images).Ok?)
  {
    var text := if content.Some? then content.value else "";
    if |text| < 1 then Err(ParamValue("content is empty"))
    else if !(text != "" || images != []) then Err(ParamValue("content and images are empty"))
    else
      var image :-
        if images != [] then
          var imgs :- PackImages(m, images);
          Ok(Some(List(imgs)))
        else Ok(None);
      Ok(InsertNote(text, image, name, if TruthyStr(postId) then postId.value else uuid))
  }

  /** The key insertions of `_pack_content`, each made only when its value is
      there. Every key inserted is new, so `content_obj[k] = v` appends the entry. */
  function InsertNote(text: string, image: Option<Value>, name: Option<string>, id: string): seq<(string, Value)>
  {
    var obj := [("type", Str("Note"))];
    var obj := if text != "" then obj + [("content", Str(text))] else obj;
    var obj := if image.Some? then obj + [("image", image.value)] else obj;
    var obj := if TruthyStr(name) then obj + [("name", Str(name.value))] else obj;
    obj + [("id", Str(id))]
  }

  lemma InsertNoteKeys(text: string, image: Option<Value>, name: Option<string>, id: string)
    requires text != ""
    ensures var r := InsertNote(text, image, name, id);
      Keys(r) == NoteKeys(image.Some?, TruthyStr(name)) && DistinctKeys(r)
  {
    var r := InsertNote(text, image, name, id);
    var t, c, d := ("type", Str("Note")), ("content", Str(text)), ("id", Str(id));
    if image.Some? && TruthyStr(name) {
      assert r == [t, c, ("image", image.value), ("name", Str(name.value)), d];
    } else if image.Some? {
      assert r == [t, c, ("image", image.value), d];
    } else if TruthyStr(name) {
      assert r == [t, c, ("name", Str(name.value)), d];
    } else {
      assert r == [t, c, d];
    }
    assert Keys(r) == NoteKeys(image.Some?, TruthyStr(name));
  }

  lemma InsertNoteFind(text: string, image: Option<Value>, name: Option<string>, id: string)
    requires text != ""
    ensures var r := InsertNote(text, image, name, id);
      && Find(r, "type") == Some(Str("Note")) && Find(r, "content") == Some(Str(text))
      && Find(r, "id") == Some(Str(id)) && Find(r, "image") == image
      && Find(r, "name") == (if TruthyStr(name) then Some(Str(name.value)) else None)
  {
    InsertNoteFindFixed(text, image, name, id);
    InsertNoteFindOptional(text, image, name, id);
  }

  lemma InsertNoteFindFixed(text: string, image: Option<Value>, name: Option<string>, id: string)
    requires text != ""
    ensures var r := InsertNote(text, image, name, id);
      Find(r, "type") == Some(Str("Note")) && Find(r, "content") == Some(Str(text)) && Find(r, "id") == Some(Str(id))
  {
    var r := InsertNote(text, image, name, id);
    InsertNoteKeys(text, image, name, id);
    FindEntry(r, 0);
    FindEntry(r, 1);
    FindEntry(r, |r| - 1);
  }

  lemma InsertNoteFindOptional(text: string, image: Option<Value>, name: Option<string>, id: string)
    requires text != ""
    ensures var r := InsertNote(text, image, name, id);
      && Find(r, "image") == image
      && Find(r, "name") == (if TruthyStr(name) then Some(Str(name.value)) else None)
  {
    var r := InsertNote(text, image, name, id);
    InsertNoteKeys(text, image, name, id);
    var t, c, d := ("type", Str("Note")), ("content", Str(text)), ("id", Str(id));
    if image.Some? && TruthyStr(name) {
      assert r == [t, c, ("image", image.value), ("name", Str(name.value)), d];
      FindEntry(r, 2);
      FindEntry(r, 3);
    } else if image.Some? {
      assert r == [t, c, ("image", image.value), d];
      FindEntry(r, 2);
      assert "name" !in NoteKeys(true, false);
    } else if TruthyStr(name) {
      assert r == [t, c, ("name", Str(name.value)), d];
      FindEntry(r, 2);
      assert "image" !in NoteKeys(false, true);
    } else {
      assert "image" !in NoteKeys(false, false) && "name" !in NoteKeys(false, false);
    }
  }

  /** What `_pack_content` builds: exactly the keys type, content, image (when
      images are given), name (when given) and id, in that order, holding "Note",
      the text, the packed image list, the name, and the post id or else `uuid`. */
  lemma PackContentShape(m: Media, content: Option<string>, images: seq<Value>, name: Option<string>,
                         postId: Option<string>, uuid: string)
    requires PackContent(m, content, images, name, postId, uuid).Ok?
    ensures var r := PackContent(m, content, images, name, postId, uuid).value;
      && Keys(r) == NoteKeys(images != [], TruthyStr(name)) && DistinctKeys(r)
      && Find(r, "type") == Some(Str("Note"))
      && Find(r, "content") == Some(Str(content.value))
      && Find(r, "id") == Some(Str(if TruthyStr(postId) then postId.value else uuid))
      && Find(r, "image") == (if images != [] then Some(List(PackImages(m, images).value)) else None)
      && Find(r, "name") == (if TruthyStr(name) then Some(Str(name.value)) else None)
  {
    var image := if images != [] then Some(List(PackImages(m, images).value)) else None;
    var id := if TruthyStr(postId) then postId.value else uuid;
    assert PackContent(m, content, images, name, postId, uuid).value == InsertNote(content.value, image, name, id);
    InsertNoteKeys(content.value, image, name, id);
    InsertNoteFind(content.value, image, name, id);
  }

  /** The note ends with its `id` entry, and no other entry has that key or the
      key `inreplyto`. */
  lemma InsertNoteEndsWithId(text: string, image: Option<Value>, name: Option<string>, id: string)
    requires text != ""
    ensures var r := InsertNote(text, image, name, id);
      && |r| >= 1
      && r == r[..|r| - 1] + [("id", Str(id))]
      && "id" !in Keys(r[..|r| - 1])
      && "inreplyto" !in Keys(r)
  {
    var r := InsertNote(text, image, name, id);
    InsertNoteKeys(text, image, name, id);
    var prefix := r[..|r| - 1];
    assert r == prefix + [r[|r| - 1]];
    forall i | 0 <= i < |prefix| ensures Keys(prefix)[i] != "id" {
      assert Keys(prefix)[i] == r[i].0 != r[|r| - 1].0;
    }
  }

  /** The packed note ends with its `id` entry, and no other entry has that key
      or the key `inreplyto`. */
  lemma PackContentEndsWithId(m: Media, content: Option<string>, images: seq<Value>, name: Option<string>,
                              postId: Option<string>, uuid: string)
    requires PackContent(m, content, images, name, postId, uuid).Ok?
    ensures var r := PackContent(m, content, images, name, postId, uuid).value;
      && |r| >= 1
      && r == r[..|r| - 1] + [("id", Str(if TruthyStr(postId) then postId.value else uuid))]
      && "id" !in Keys(r[..|r| - 1])
      && "inreplyto" !in Keys(r)
  {
    var image := if images != [] then Some(List(PackImages(m, images).value)) else None;
    var id := if TruthyStr(postId) then postId.value else uuid;
    assert PackContent(m, content, images, name, postId, uuid).value == InsertNote(content.value, image, name, id);
    InsertNoteEndsWithId(content.value, image, name, id);
  }

  /* -------------------------------------------------------- feed payloads */

  function NoteRef(id: string): Value { Dict([("type", Str("Note")), ("id", Str(id))]) }
  function PersonRef(addr: string): Value { Dict([("type", Str("Person")), ("id", Str(addr))]) }

  /** A Create activity whose object is the dict `obj`. */
  function Create(obj: seq<(string, Value)>): (r: Value)
    ensures Index(r, "type") == Ok(Str("Create")) && Index(r, "object") == Ok(Dict(obj))
  {
    FindTwo("type", Str("Create"), "object", Dict(obj));
    Dict([("type", Str("Create")), ("object", Dict(obj))])
  }

  /** `FeedData.new_post`: a Create of the packed note. */
  function NewPost(m: Media, content: Option<string>, images: seq<Value>, postId: Option<string>,
                   name: Option<string>, uuid: string): (r: Result<Value>)
    ensures r.Ok? <==> PackContent(m, content, images, name, postId, uuid).Ok?
    ensures r.Ok? ==> r.value == Create(PackContent(m, content, images, name, postId, uuid).value)
  {
    var obj :- PackContent(m, content, images, name, postId, uuid);
    Ok(Create(obj))
  }

  /** An Update of the note `post_id` (null when none is given) to `result`. */
  function Update(result: seq<(string, Value)>, postId: Option<string>): (r: Value)
    ensures Index(r, "type") == Ok(Str("Update"))
    ensures Index(r, "object") == Ok(Dict([("type", Str("Note")), ("id", OptStr(postId))]))
    ensures Index(r, "result") == Ok(Dict(result))
  {
    var fields := [
      ("type", Str("Update")),
      ("object", Dict([("type", Str("Note")), ("id", OptStr(postId))])),
      ("result", Dict(result))];
    FindEntry(fields, 0);
    FindEntry(fields, 1);
    FindEntry(fields, 2);
    Dict(fields)
  }

  /** `FeedData.edit_post`: an Update of the note `post_id` whose result is the
      packed note with its `id` entry deleted. */
  function EditPost(m: Media, content: Option<string>, images: seq<Value>, postId: Option<string>,
                    name: Option<string>, uuid: string): (r: Result<Value>)
    ensures r.Ok? <==> PackContent(m, content, images, name, postId, uuid).Ok?
  {
    var obj :- PackContent(m, content, images, name, postId, uuid);
    Ok(Update(Remove(obj, "id"), postId))
  }

  /** The result of an edit is the packed note with only its trailing `id` entry
      dropped: the note is that result with the id appended back. */
  lemma EditPostShape(m: Media, content: Option<string>, images: seq<Value>, postId: Option<string>,
                      name: Option<string>, uuid: string)
    requires PackContent(m, content, images, name, postId, uuid).Ok?
    ensures var packed := PackContent(m, content, images, name, postId, uuid).value;
      exists result ::
        && EditPost(m, content, images, postId, name, uuid) == Ok(Update(result, postId))
        && "id" !in Keys(result)
        && packed == result + [("id", Str(if TruthyStr(postId) then postId.value else uuid))]
  {
    var packed := PackContent(m, content, images, name, postId, uuid).value;
    var id := Str(if TruthyStr(postId) then postId.value else uuid);
    PackContentEndsWithId(m, content, images, name, postId, uuid);
    var result := packed[..|packed| - 1];
    RemoveSnoc(result, "id", id);
    assert Remove(packed, "id") == result;
    assert EditPost(m, content, images, postId, name, uuid) == Ok(Update(result, postId));
  }

  /** `FeedData.reply`: a Create of the packed note with `inreplyto` naming the
      note replied to. */
  function Reply(m: Media, content: Option<string>, images: seq<Value>, replyId: string,
                 postId: Option<string>, name: Option<string>, uuid: string): (r: Result<Value>)
    ensures r.Ok? <==> PackContent(m, content, images, name, postId, uuid).Ok?
  {
    var obj :- PackContent(m, content, images, name, postId, uuid);
    Ok(Create(Put(obj, "inreplyto", NoteRef(replyId))))
  }

  /** A reply is the new post built from the same arguments with one more entry,
      `inreplyto` naming the note replied to, appended last. */
  lemma ReplyExtendsNewPost(m: Media, content: Option<string>, images: seq<Value>, replyId: string,
                            postId: Option<string>, name: Option<string>, uuid: string, obj: seq<(string, Value)>)
    requires NewPost(m, content, images, postId, name, uuid) == Ok(Create(obj))
    ensures Reply(m, content, images, replyId, postId, name, uuid)
      == Ok(Create(obj + [("inreplyto", NoteRef(replyId))]))
  {
    var packed := PackContent(m, content, images, name, postId, uuid).value;
    assert Create(packed) == Create(obj);
    PackContentEndsWithId(m, content, images, name, postId, uuid);
    PutNew(packed, "inreplyto", NoteRef(replyId));
  }

  /** `FeedData.del_post`. */
  function DelPost(postId: string): Value
  {
    Dict([("type", Str("Delete")), ("object", Dict([("type", Str("Note")), ("id", Str(postId))]))])
  }

  function Like(postId: string): Value
  {
    Dict([("type", Str("Like")), ("object", Dict([("type", Str("Note")), ("id", Str(postId))]))])
  }

  function UndoLike(postId: string): Value
  {
    Dict([("type", Str("Undo")), ("object", Dict([
      ("type", Str("Like")),
      ("object", Dict([("type", Str("Note")), ("id", Str(postId))]))]))])
  }

  function Dislike(postId: string): Value
  {
    Dict([("type", Str("Dislike")), ("object", Dict([("type", Str("Note")), ("id", Str(postId))]))])
  }

  function UndoDislike(postId: string): Value
  {
    Dict([("type", Str("Undo")), ("object", Dict([
      ("type", Str("Dislike")),
      ("object", Dict([("type", Str("Note")), ("id", Str(postId))]))]))])
  }

  function FollowUser(addr: string): Value
  {
    Dict([("type", Str("Follow")), ("object", Dict([("type", Str("Person")), ("id", Str(addr))]))])
  }

  function UnfollowUser(addr: string): Value
  {
    Dict([("type", Str("Undo")), ("object", Dict([
      ("type", Str("Follow")),
      ("object", Dict([("type", Str("Person")), ("id", Str(addr))]))]))])
  }

  function BlockUser(addr: string): Value
  {
    Dict([("type", Str("Block")), ("object", Dict([("type", Str("Person")), ("id", Str(addr))]))])
  }

  function UnblockUser(addr: string): Value
  {
    Dict([("type", Str("Undo")), ("object", Dict([
      ("type", Str("Block")),
      ("object", Dict([("type", Str("Person")), ("id", Str(addr))]))]))])
  }

  /** The activity a payload carries and the object it acts on. */
  function Activity(v: Value): Option<(Value, Value)>
  {
    var t := Index(v, "type");
    var o := Index(v, "object");
    if t.Ok? && o.Ok? then Some((t.value, o.value)) else None
  }

  /** An activity of type `t` on `obj`, read back. */
  lemma ActivityOf(t: string, obj: Value)
    ensures Activity(Dict([("type", Str(t)), ("object", obj)])) == Some((Str(t), obj))
  {
    FindTwo("type", Str(t), "object", obj);
  }

  /** Each undo wraps exactly the action it takes back. */
  lemma UndoWrapsAction(id: string)
    ensures Activity(UndoLike(id)) == Some((Str("Undo"), Like(id)))
    ensures Activity(UndoDislike(id)) == Some((Str("Undo"), Dislike(id)))
    ensures Activity(UnfollowUser(id)) == Some((Str("Undo"), FollowUser(id)))
    ensures Activity(UnblockUser(id)) == Some((Str("Undo"), BlockUser(id)))
  {
    ActivityOf("Undo", Like(id));
    ActivityOf("Undo", Dislike(id));
    ActivityOf("Undo", FollowUser(id));
    ActivityOf("Undo", BlockUser(id));
  }

  /** Deleting, liking and disliking act on a Note, following and blocking on a Person. */
  lemma ActionTargets(id: string)
    ensures Activity(DelPost(id)) == Some((Str("Delete"), NoteRef(id)))
    ensures Activity(Like(id)) == Some((Str("Like"), NoteRef(id)))
    ensures Activity(Dislike(id)) == Some((Str("Dislike"), NoteRef(id)))
    ensures Activity(FollowUser(id)) == Some((Str("Follow"), PersonRef(id)))
    ensures Activity(BlockUser(id)) == Some((Str("Block"), PersonRef(id)))
  {
    ActivityOf("Delete", NoteRef(id));
    ActivityOf("Like", NoteRef(id));
    ActivityOf("Dislike", NoteRef(id));
    ActivityOf("Follow", PersonRef(id));
    ActivityOf("Block", PersonRef(id));
  }

  /** `FeedData.profile`: a Create of a Profile describing the Person `addr`, with
      the name when given and the avatar packed as a one-image list when given;
      at least one of the two is required. Both keys are new, so each insertion
      appends. */
  function Profile(m: Media, name: Option<string>, avatar: Value, addr: string): (r: Result<Value>)
    ensures !TruthyStr(name) && !Truthy(avatar) ==> r == Err(ParamValue("name and avatar are empty"))
    ensures (TruthyStr(name) || Truthy(avatar)) ==>
      (r.Ok? <==> !Truthy(avatar) || PackImages(m, [avatar]).Ok?)
  {
    if !(TruthyStr(name) || Truthy(avatar)) then Err(ParamValue("name and avatar are empty"))
    else
      var obj := [("type", Str("Profile")), ("describes", PersonRef(addr))];
      var obj := if TruthyStr(name) then obj + [("name", Str(name.value))] else obj;
      var obj :-
        if Truthy(avatar) then
          var imgs :- PackImages(m, [avatar]);
          Ok(obj + [("image", List(imgs))])
        else Ok(obj);
      Ok(Create(obj))
  }

  /** The avatar of a profile is packed alone, with the whole budget of the trx. */
  lemma AvatarGetsWholeBudget(m: Media, avatar: Value)
    ensures PackImages(m, [avatar]).Ok? <==> PackImage(m, avatar, ImageMaxSizeKb, m.stamp(0)).Ok?
    ensures PackImages(m, [avatar]).Ok? ==>
      PackImages(m, [avatar]).value == [PackImage(m, avatar, ImageMaxSizeKb, m.stamp(0)).value]
  {
    assert ImageBudget(1) == ImageMaxSizeKb;
    var pack := ImagePacker(m, ImageMaxSizeKb);
    assert [avatar][..Min(1, ImageMaxNum)] == [avatar];
    assert PackImages(m, [avatar]) == PackEach(pack, [avatar], 0);
    assert pack([avatar][0], 0 + 0) == PackImage(m, avatar, ImageMaxSizeKb, m.stamp(0));
  }

  /** A profile's object is exactly type Profile, the Person it describes, then
      the name when given and the avatar's one-image list when given. */
  lemma ProfileShape(m: Media, name: Option<string>, avatar: Value, addr: string)
    requires Profile(m, name, avatar, addr).Ok?
    ensures Profile(m, name, avatar, addr) == Ok(Create(
        [("type", Str("Profile")), ("describes", PersonRef(addr))]
        + (if TruthyStr(name) then [("name", Str(name.value))] else [])
        + (if Truthy(avatar) then [("image", List([PackImage(m, avatar, ImageMaxSizeKb, m.stamp(0)).value]))] else [])))
  {
    var head := [("type", Str("Profile")), ("describes", PersonRef(addr))];
    var named := head + (if TruthyStr(name) then [("name", Str(name.value))] else []);
    assert (if TruthyStr(name) then head + [("name", Str(name.value))] else head) == named;
    if Truthy(avatar) {
      ProfileWithAvatar(m, name, avatar, addr, named);
    } else {
      assert Profile(m, name, avatar, addr) == Ok(Create(named));
      assert named + [] == named;
    }
  }

  lemma ProfileWithAvatar(m: Media, name: Option<string>, avatar: Value, addr: string, named: seq<(string, Value)>)
    requires Profile(m, name, avatar, addr).Ok? && Truthy(avatar)
    requires named == var head := [("type", Str("Profile")), ("describes", PersonRef(addr))];
      if TruthyStr(name) then head + [("name", Str(name.value))] else head
    ensures Profile(m, name, avatar, addr)
         == Ok(Create(named + [("image", List([PackImage(m, avatar, ImageMaxSizeKb, m.stamp(0)).value]))]))
  {
    AvatarGetsWholeBudget(m, avatar);
    var imgs := PackImages(m, [avatar]).value;
    assert imgs == [PackImage(m, avatar, ImageMaxSizeKb, m.stamp(0)).value];
    assert Profile(m, name, avatar, addr) == Ok(Create(named + [("image", List(imgs))]));
  }

  /* ---------------------------------------------------- group appconfig */

  /** The keys of every appconfig item, in order. */
  function AppconfigKeys(): seq<string> { ["name", "_type", "value", "action", "memo"] }

  /** An appconfig item that adds a string setting. */
  function AppconfigItem(name: string, value: Value, memo: string): (r: Value)
    ensures r.Dict? && Keys(r.fields) == AppconfigKeys()
    ensures Find(r.fields, "name") == Some(Str(name)) && Find(r.fields, "value") == Some(value)
    ensures Find(r.fields, "_type") == Some(Str("string")) && Find(r.fields, "action") == Some(Str("add"))
    ensures Find(r.fields, "memo") == Some(Str(memo))
  {
    var fields := [("name", Str(name)), ("_type", Str("string")), ("value", value),
                   ("action", Str("add")), ("memo", Str(memo))];
    FindEntry(fields, 0);
    FindEntry(fields, 1);
    FindEntry(fields, 2);
    FindEntry(fields, 3);
    FindEntry(fields, 4);
    Dict(fields)
  }

  /** `FeedData.group_icon`. */
  function GroupIcon(m: Media, icon: Value): (r: Result<Value>)
    ensures r.Ok? <==> GroupIconUri(m, icon).Ok?
    ensures r.Ok? ==> (r.value.Dict? && Keys(r.value.fields) == AppconfigKeys()
      && Find(r.value.fields, "name") == Some(Str("group_icon"))
      && Find(r.value.fields, "value") == Some(Str(GroupIconUri(m, icon).value)))
  {
    var uri :- GroupIconUri(m, icon);
    Ok(AppconfigItem("group_icon", Str(uri), "init group icon"))
  }

  /** `FeedData.group_desc`: the description, echoed as an added string setting. */
  function GroupDesc(desc: string): (r: Value)
    ensures r.Dict? && Keys(r.fields) == AppconfigKeys()
    ensures Find(r.fields, "name") == Some(Str("group_desc")) && Find(r.fields, "value") == Some(Str(desc))
    ensures Find(r.fields, "_type") == Some(Str("string")) && Find(r.fields, "action") == Some(Str("add"))
  {
    AppconfigItem("group_desc", Str(desc), "init group desc")
  }

  /** `FeedData.group_announcement`: the announcement, echoed as an added string setting. */
  function GroupAnnouncement(announcement: string): (r: Value)
    ensures r.Dict? && Keys(r.fields) == AppconfigKeys()
    ensures Find(r.fields, "name") == Some(Str("group_announcement"))
      && Find(r.fields, "value") == Some(Str(announcement))
    ensures Find(r.fields, "_type") == Some(Str("string")) && Find(r.fields, "action") == Some(Str("add"))
  {
    AppconfigItem("group_announcement", Str(announcement), "init group announcement")
  }

  /** `FeedData.group_default_permission`: the permission upper-cased, which must
      then read WRITE or READ. */
  function GroupDefaultPermission(permission: string): (r: Result<Value>)
    ensures r.Err? <==> Upper(permission) != "WRITE" && Upper(permission) != "READ"
    ensures r.Err? ==> r == Err(ParamValue("default_permission must be one of these: WRITE,READ"))
    ensures r.Ok? ==> r.value.Dict? && Find(r.value.fields, "value") == Some(Str(Upper(permission)))
  {
    var p := Upper(permission);
    if p !in ["WRITE", "READ"] then Err(ParamValue("default_permission must be one of these: WRITE,READ"))
    else Ok(AppconfigItem("group_default_permission", Str(p), "init group default permission"))
  }

  lemma PermissionCases()
    ensures Upper("WRITE") == "WRITE" && Lower("WRITE") == "write"
    ensures Upper("READ") == "READ" && Lower("READ") == "read"
  {
    assert Upper("WRITE") == "WRITE" && Lower("WRITE") == "write";
    assert Upper("READ") == "READ" && Lower("READ") == "read";
  }

  /** The permission check ignores case: it accepts exactly the spellings of
      "write" and "read" in any case, and spellings that differ only in case give
      the same item. */
  lemma DefaultPermissionIgnoresCase(a: string, b: string)
    ensures GroupDefaultPermission(a).Ok? <==> Lower(a) == "write" || Lower(a) == "read"
    ensures Upper(a) == Upper(b) ==> GroupDefaultPermission(a) == GroupDefaultPermission(b)
  {
    PermissionCases();
    SameUpToCase(a, "WRITE");
    SameUpToCase(a, "READ");
  }
}
