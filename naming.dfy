/** How a thread's media become file references, and how the output
    directory is named from the thread URL (4get.js `parse`, the default
    ignore list of the constructor, and `setAndCreateDir`). */
module Naming {
  import opened Text

  datatype Option<T> = None | Some(value: T)

  /** One `div.file` block of a page, as the parser reads it: the `href` of
      its thumbnail link, the `title` attribute of its file-text link (absent
      when the attribute is missing) and that link's text. */
  datatype FileBlock = FileBlock(href: string, title: Option<string>, text: string)

  /** The `[url, fileName]` pair handed to a worker; a `None` name stands for
      JavaScript's `undefined`, which an out-of-range index gives. */
  datatype FileRef = FileRef(url: string, name: Option<string>)

  /** Generic names that mobile upload clients give every image. */
  const IgnoreOriginalFileName: seq<string> :=
    ["image.jpg", "image.png", "image.gif", "image.webm"]

  /** The platform's path separator (`path.sep`), POSIX form. */
  const PathSep: string := "/"

  /** `parts[i]` as an optional value. */
  function At(parts: seq<string>, i: nat): Option<string>
  {
    if i < |parts| then Some(parts[i]) else None
  }

  /** The absolute media URL: the scheme-relative `href` behind `http:`. */
  function MediaUrl(b: FileBlock): string {
    "http:" + b.href
  }

  /** The name the board generated: segment 4 of the URL split on `/`. */
  function GeneratedName(url: string): Option<string> {
    At(Split(url, '/'), 4)
  }

  /** The uploader's name: the `title` attribute, or the link text when the
      attribute is missing or empty (JavaScript's `||`). */
  function OriginalName(b: FileBlock): string {
    if b.title.Some? && b.title.value != "" then b.title.value else b.text
  }

  /** The reference `parse` builds for one block. */
  function FileFor(b: FileBlock, useOriginal: bool): (f: FileRef)
    ensures f.url == MediaUrl(b)
    ensures useOriginal && OriginalName(b) !in IgnoreOriginalFileName ==>
              f.name == Some(OriginalName(b))
    ensures !useOriginal || OriginalName(b) in IgnoreOriginalFileName ==>
              f.name == GeneratedName(MediaUrl(b))
  {
    var url := MediaUrl(b);
    var generated := GeneratedName(url);
    if useOriginal && OriginalName(b) !in IgnoreOriginalFileName then FileRef(url, Some(OriginalName(b)))
    else FileRef(url, generated)
  }

  /** The references `parse` emits, one per block, in page order. */
  function FilesOf(blocks: seq<FileBlock>, useOriginal: bool): (files: seq<FileRef>)
    ensures |files| == |blocks|
    ensures forall i :: 0 <= i < |blocks| ==> files[i] == FileFor(blocks[i], useOriginal)
  {
    seq(|blocks|, i requires 0 <= i < |blocks| => FileFor(blocks[i], useOriginal))
  }

  /** For a thumbnail link `//host/board/name` the generated name is `name`,
      whatever the uploader called the file. */
  lemma GeneratedNameOfMediaLink(host: string, board: string, name: string)
    requires '/' !in host && '/' !in board && '/' !in name
    ensures GeneratedName("http:" + ("//" + host + "/" + board + "/" + name)) == Some(name)
  {
    var parts := ["http:", "", host, board, name];
    assert Join(parts, '/') == "http:" + ("//" + host + "/" + board + "/" + name) by {
      assert Join(parts[4..], '/') == name;
      assert Join(parts[3..], '/') == board + "/" + name;
      assert Join(parts[2..], '/') == host + "/" + board + "/" + name;
      assert Join(parts[1..], '/') == "/" + host + "/" + board + "/" + name;
    }
    SplitJoin(parts, '/');
  }

  /** A file the uploader called `image.jpg`, one of the generic names, is
      saved under the board's generated name: behind the thumbnail link
      `//i.4cdn.org/wg/1446070897711.jpg` that is `1446070897711.jpg`. */
  lemma GenericUploadKeepsBoardName()
    ensures FileFor(FileBlock("//i.4cdn.org/wg/1446070897711.jpg", Some("image.jpg"), "image.jpg"), true).name
            == Some("1446070897711.jpg")
  {
    var b := FileBlock("//i.4cdn.org/wg/1446070897711.jpg", Some("image.jpg"), "image.jpg");
    assert OriginalName(b) == IgnoreOriginalFileName[0];
    ThumbnailLinkPieces();
    assert MediaUrl(b) == "http:" + ("//" + "i.4cdn.org" + "/" + "wg" + "/" + "1446070897711.jpg");
    GeneratedNameOfMediaLink("i.4cdn.org", "wg", "1446070897711.jpg");
  }

  /** The thumbnail link above, as host, board and name. */
  lemma ThumbnailLinkPieces()
    ensures "//i.4cdn.org/wg/1446070897711.jpg" == "//" + "i.4cdn.org" + "/" + "wg" + "/" + "1446070897711.jpg"
  {
  }

  /** `parts[i]` as string concatenation sees it: a missing part reads as
      the text `undefined`. */
  function PartText(parts: seq<string>, i: nat): string {
    if i < |parts| then parts[i] else "undefined"
  }

  /** The directory name `setAndCreateDir` derives from the thread URL:
      board, slug and thread id when the URL splits into 7 parts, board and
      thread id otherwise. It is a single path segment: no part of a split
      holds the separator. */
  function DirName(url: string): (name: string)
    ensures '/' !in name
  {
    var parts := Split(url, '/');
    if |parts| == 7 then PartText(parts, 3) + "_" + parts[6] + "_" + PartText(parts, 5)
    else PartText(parts, 3) + "_" + PartText(parts, 5)
  }

  /** The directory path, below the working directory, with a trailing
      separator. */
  function DirPath(cwd: string, url: string): string {
    cwd + PathSep + DirName(url) + PathSep
  }

  /** The directory name of a URL that splits into sep-free `parts`. */
  lemma DirNameOfParts(parts: seq<string>)
    requires |parts| >= 6
    requires forall i :: 0 <= i < |parts| ==> '/' !in parts[i]
    ensures DirName(Join(parts, '/')) ==
              if |parts| == 7 then parts[3] + "_" + parts[6] + "_" + parts[5]
              else parts[3] + "_" + parts[5]
  {
    SplitJoin(parts, '/');
  }

  /** Joining six parts. */
  lemma JoinSix(a: string, b: string, c: string, d: string, e: string, f: string)
    ensures Join([a, b, c, d, e, f], '/') == a + "/" + b + "/" + c + "/" + d + "/" + e + "/" + f
  {
    var parts := [a, b, c, d, e, f];
    assert Join(parts[5..], '/') == f;
    assert Join(parts[4..], '/') == e + "/" + f;
    assert Join(parts[3..], '/') == d + "/" + e + "/" + f;
    assert Join(parts[2..], '/') == c + "/" + d + "/" + e + "/" + f;
    assert Join(parts[1..], '/') == b + "/" + c + "/" + d + "/" + e + "/" + f;
  }

  /** Appending one part to a join. */
  lemma {:induction false} JoinSnoc(parts: seq<string>, x: string, sep: char)
    requires |parts| >= 1
    ensures Join(parts + [x], sep) == Join(parts, sep) + [sep] + x
    decreases |parts|
  {
    if |parts| > 1 {
      JoinSnoc(parts[1..], x, sep);
      assert (parts + [x])[1..] == parts[1..] + [x];
    }
  }

  /** A thread URL without a slug names its directory `board_id`. */
  lemma DirNameWithoutSlug(scheme: string, host: string, board: string, kind: string, id: string)
    requires '/' !in scheme && '/' !in host && '/' !in board && '/' !in kind && '/' !in id
    ensures DirName(scheme + "//" + host + "/" + board + "/" + kind + "/" + id) == board + "_" + id
  {
    JoinSix(scheme, "", host, board, kind, id);
    assert scheme + "/" + "" + "/" + host + "/" + board + "/" + kind + "/" + id
        == scheme + "//" + host + "/" + board + "/" + kind + "/" + id;
    DirNameOfParts([scheme, "", host, board, kind, id]);
  }

  /** A thread URL with a slug names its directory `board_slug_id`: the slug
      comes before the thread id. */
  lemma DirNameWithSlug(scheme: string, host: string, board: string, kind: string, id: string, slug: string)
    requires '/' !in scheme && '/' !in host && '/' !in board && '/' !in kind && '/' !in id && '/' !in slug
    ensures DirName(scheme + "//" + host + "/" + board + "/" + kind + "/" + id + "/" + slug)
            == board + "_" + slug + "_" + id
  {
    var six := [scheme, "", host, board, kind, id];
    JoinSix(scheme, "", host, board, kind, id);
    JoinSnoc(six, slug, '/');
    assert scheme + "/" + "" + "/" + host + "/" + board + "/" + kind + "/" + id + "/" + slug
        == scheme + "//" + host + "/" + board + "/" + kind + "/" + id + "/" + slug;
    assert six + [slug] == [scheme, "", host, board, kind, id, slug];
    DirNameOfParts(six + [slug]);
  }

  /** Usage example: the wallpapers thread
      `http://boards.4chan.org/wg/thread/6581245` is saved in `wg_6581245`. */
  lemma UsageExampleDir()
    ensures DirName("http:" + "//" + "boards.4chan.org" + "/" + "wg" + "/" + "thread" + "/" + "6581245")
            == "wg_6581245"
  {
    DirNameWithoutSlug("http:", "boards.4chan.org", "wg", "thread", "6581245");
  }

  /** A slugged thread `http://boards.4chan.org/wg/thread/123456/my-slug`
      is saved in `wg_my-slug_123456`, not `wg_123456_my-slug`. */
  lemma SluggedExampleDir()
    ensures DirName("http:" + "//" + "boards.4chan.org" + "/" + "wg" + "/" + "thread" + "/" + "123456" + "/" + "my-slug")
            == "wg_my-slug_123456"
  {
    DirNameWithSlug("http:", "boards.4chan.org", "wg", "thread", "123456", "my-slug");
    SluggedNamePieces();
  }

  /** The directory name above, as board, slug and thread id. */
  lemma SluggedNamePieces()
    ensures "wg" + "_" + "my-slug" + "_" + "123456" == "wg_my-slug_123456"
  {
  }
}
