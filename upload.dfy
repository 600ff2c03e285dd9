/**
 * The upload side of a POST: which multipart parts formidable is told to keep, the size
 * cap it is given, and how the kept file's metadata becomes the record's `image` path.
 */
module Upload {
  import opened Wrappers
  import opened PosixPath
  import opened JsText

  /** What the filter sees of a multipart part: its field name and declared content type. */
  datatype Part = Part(name: Option<string>, mimetype: Option<string>)

  /** The largest upload formidable is told to accept, in bytes: five mebibytes. */
  const MaxFileSize: nat := 5 * 1024 * 1024

  /** The cap spelled out: five mebibytes. */
  lemma MaxFileSizeIsFiveMebibytes()
    ensures MaxFileSize == 5242880
  {
  }

  /**
   * The filter of line 48: a part is kept when its declared content type begins with `image/`,
   * or when it was sent under the field name `image`.
   */
  predicate Accepts(part: Part)
    ensures part.name == Some("image") ==> Accepts(part)
    ensures part.mimetype.Some? && |part.mimetype.value| >= 6 && part.mimetype.value[..6] == "image/" ==> Accepts(part)
    ensures Accepts(part) && part.name != Some("image") ==>
              part.mimetype.Some? && |part.mimetype.value| >= 6 && part.mimetype.value[..6] == "image/"
  {
    (part.mimetype.Some? && "image/" <= part.mimetype.value) || part.name == Some("image")
  }

  /** A part without a content type is kept only on account of its field name. */
  lemma AcceptsWithoutMimetype(part: Part)
    requires part.mimetype.None?
    ensures Accepts(part) <==> part.name == Some("image")
  {
  }

  /** A part under any other field name is kept exactly when its content type is an image type. */
  lemma AcceptsOtherFieldByMimetype(part: Part)
    requires part.name != Some("image")
    ensures var m := part.mimetype.GetOr(""); Accepts(part) <==> |m| >= 6 && m[..6] == "image/"
  {
    if part.mimetype.Some? && "image/" <= part.mimetype.value {
      assert part.mimetype.value[..6] == "image/";
    }
  }

  /** formidable's description of a stored file: the three names the route may take it from. */
  datatype FileMeta = FileMeta(newFilename: Option<string>, originalFilename: Option<string>, filepath: Option<string>)

  /** `files.image`: no file, one file, or an array of files. */
  datatype ImageField = NoFile | OneFile(file: FileMeta) | FileArray(files: seq<FileMeta>)

  /** Line 95: the first element of an array (nothing for an empty one), or the value itself. */
  function ChosenFile(image: ImageField): (r: Option<FileMeta>)
    ensures r.None? <==> image.NoFile? || (image.FileArray? && |image.files| == 0)
    ensures r.Some? ==> (if image.OneFile? then r.value == image.file else r.value == image.files[0])
  {
    match image
    case NoFile => None
    case OneFile(f) => Some(f)
    case FileArray(fs) => if |fs| > 0 then Some(fs[0]) else None
  }

  /**
   * Line 97: the first of the three names that is set and non-empty, or the empty name when none
   * of them is.
   */
  function StoredName(f: FileMeta): (r: string)
    ensures r == "" <==> !Truthy(f.newFilename) && !Truthy(f.originalFilename) && !Truthy(f.filepath)
    ensures Truthy(f.newFilename) ==> r == f.newFilename.value
    ensures !Truthy(f.newFilename) && Truthy(f.originalFilename) ==> r == f.originalFilename.value
    ensures !Truthy(f.newFilename) && !Truthy(f.originalFilename) && Truthy(f.filepath) ==> r == f.filepath.value
  {
    if Truthy(f.newFilename) then f.newFilename.value
    else if Truthy(f.originalFilename) then f.originalFilename.value
    else if Truthy(f.filepath) then f.filepath.value
    else ""
  }

  /** Lines 93-101: the public path of the uploaded image, or `null`. */
  function ImageRelPath(image: ImageField): (r: Option<string>)
    ensures r.Some? ==> |r.value| > 0 && r.value[0] == '/'
  {
    match ChosenFile(image)
    case None => None
    case Some(f) =>
      var fileName := Basename(StoredName(f));
      if fileName == "" then None else Some(JoinImageDir(fileName))
  }

  /** An array of files contributes only its first element. */
  lemma ArrayUsesFirstFile(fs: seq<FileMeta>)
    ensures ImageRelPath(FileArray(fs)) == if |fs| > 0 then ImageRelPath(OneFile(fs[0])) else None
  {
  }

  /** `image` is `null` exactly when there is no file, or its chosen name is empty or only slashes. */
  lemma ImageRelPathNullIff(image: ImageField)
    ensures ImageRelPath(image).None? <==>
            ChosenFile(image).None? ||
            forall k | 0 <= k < |StoredName(ChosenFile(image).value)| :: StoredName(ChosenFile(image).value)[k] == '/'
  {
  }

  /** A file with none of its three names set gets no image path. */
  lemma UnnamedFileHasNoPath(f: FileMeta)
    requires !Truthy(f.newFilename) && !Truthy(f.originalFilename) && !Truthy(f.filepath)
    ensures ImageRelPath(OneFile(f)) == None
  {
  }

  /** A plain file name (formidable's generated `newFilename`) is kept verbatim under `/schoolImages/`. */
  lemma PlainNameKeptUnderImageDir(f: FileMeta)
    requires Truthy(f.newFilename) && '/' !in f.newFilename.value
    requires f.newFilename.value != "." && f.newFilename.value != ".."
    ensures ImageRelPath(OneFile(f)) == Some("/schoolImages/" + f.newFilename.value)
  {
    var n := f.newFilename.value;
    assert StoredName(f) == n;
    assert Basename(n) == n;
    assert ImageDir + "/" + n == "/schoolImages/" + n;
  }

  /**
   * Every image path is `/schoolImages/<name>` with no further separator in `<name>`, except the
   * two that `.` and `..` normalise to.
   */
  lemma ImagePathUnderImageDir(image: ImageField)
    requires ImageRelPath(image).Some?
    ensures var p := ImageRelPath(image).value;
            p == "/schoolImages" || p == "/" ||
            (|p| > 14 && p[..14] == "/schoolImages/" && forall k | 14 <= k < |p| :: p[k] != '/')
  {
    var f := ChosenFile(image).value;
    var b := Basename(StoredName(f));
    if b != "." && b != ".." {
      JoinImageDirSeparators(b);
    }
  }
}
