/** `app/services/exporter_google.py`: write the article markdown to
    `exports/<slug>-<6 hex digits>.md` and return the file's resolved path.

    `uuid4().hex` is given as a 32-digit lower-case hexadecimal string and
    `Path.resolve` as a function; creating the directory and writing the file
    are reduced to the content written. */
module Exporter {
  import opened Text

  const ExportDir := "exports"

  const MaxSlugLength := 60

  predicate IsHexDigit(c: char) {
    '0' <= c <= '9' || 'a' <= c <= 'f'
  }

  /** `uuid4().hex` */
  type UuidHex = s: string | |s| == 32 && forall i :: 0 <= i < |s| ==> IsHexDigit(s[i])
    witness "00000000000000000000000000000000"

  /** `"-".join(query.lower().split())[:60]` */
  function Slug(query: string): (slug: string)
    ensures var full := Join("-", Words(Lower(query)));
      |slug| <= MaxSlugLength && |slug| <= |full| && slug == full[..|slug|]
    ensures |Join("-", Words(Lower(query)))| <= MaxSlugLength ==> slug == Join("-", Words(Lower(query)))
  {
    var full := Join("-", Words(Lower(query)));
    if |full| <= MaxSlugLength then full else full[..MaxSlugLength]
  }

  /** A slug holds no whitespace and no upper-case letter. */
  lemma SlugIsClean(query: string)
    ensures NoSpace(Slug(query)) && IsLowerCase(Slug(query))
  {
    var lower := Lower(query);
    var words := Words(lower);
    WordsAvoid(lower, IsUpperChar);
    JoinAvoids("-", words, IsUpperChar);
    JoinAvoids("-", words, IsSpace);
    var full := Join("-", words);
    var slug := Slug(query);
    assert forall i :: 0 <= i < |slug| ==> slug[i] == full[i];
  }

  /** A slug is its own slug: exporting under a slug's name again gives the
      same file name stem. */
  lemma SlugIdempotent(query: string)
    ensures Slug(Slug(query)) == Slug(query)
  {
    var slug := Slug(query);
    SlugIsClean(query);
    LowerOfLowerCase(slug);
    WordsOfNoSpace(slug);
  }

  /** The words of the query, lower-cased and joined by `-`, when that fits. */
  lemma SlugOfShortQuery(words: seq<string>)
    requires forall k :: 0 <= k < |words| ==> words[k] != "" && NoSpace(words[k]) && IsLowerCase(words[k])
    requires |Join("-", words)| <= MaxSlugLength
    ensures Slug(Join(" ", words)) == Join("-", words)
  {
    var text := Join(" ", words);
    JoinAvoids(" ", words, IsUpperChar);
    LowerOfLowerCase(text);
    WordsOfJoin(words);
  }

  /** Words written out with single spaces between them split back into
      those words. */
  lemma {:induction false} WordsOfJoin(words: seq<string>)
    requires forall k :: 0 <= k < |words| ==> words[k] != "" && NoSpace(words[k])
    ensures Words(Join(" ", words)) == words
    decreases |words|
  {
    if |words| == 1 {
      WordsOfNoSpace(words[0]);
    } else if |words| > 1 {
      var w := words[0];
      var rest := Join(" ", words[1..]);
      WordsOfJoin(words[1..]);
      var s := Join(" ", words);
      assert s == w + " " + rest;
      assert s[|w|] == ' ';
      assert IndexWhere(s, IsSpace) == |w|;
      assert s[..|w|] == w;
      var after := s[|w|..];
      assert after == " " + rest;
      assert after[1..] == rest;
    }
  }

  predicate IsSlashChar(c: char) {
    c == '/'
  }

  /** A part a POSIX `pathlib` path keeps: neither empty (from `//` or a
      leading `/`) nor `.`. */
  predicate IsPathPart(seg: string) {
    seg != "" && seg != "."
  }

  /** The pieces between `/` characters that `pathlib` keeps, in order. */
  function KeepParts(segs: seq<string>): (parts: seq<string>)
    ensures |parts| <= |segs|
    ensures forall k :: 0 <= k < |parts| ==> IsPathPart(parts[k]) && parts[k] in segs
    decreases |segs|
  {
    if segs == [] then []
    else if IsPathPart(segs[0]) then [segs[0]] + KeepParts(segs[1..])
    else KeepParts(segs[1..])
  }

  /** Keeping parts of a list that already holds only parts changes nothing. */
  lemma {:induction false} KeepPartsOfParts(parts: seq<string>)
    requires forall k :: 0 <= k < |parts| ==> IsPathPart(parts[k])
    ensures KeepParts(parts) == parts
    decreases |parts|
  {
    if parts != [] {
      KeepPartsOfParts(parts[1..]);
    }
  }

  /** One more piece is kept at the end iff it is a part. */
  lemma {:induction false} KeepPartsSnoc(segs: seq<string>, seg: string)
    ensures KeepParts(segs + [seg]) == KeepParts(segs) + (if IsPathPart(seg) then [seg] else [])
    decreases |segs|
  {
    if segs != [] {
      assert (segs + [seg])[1..] == segs[1..] + [seg];
      KeepPartsSnoc(segs[1..], seg);
    }
  }

  /** The parts of a POSIX path string. */
  function PathParts(s: string): (parts: seq<string>)
    ensures forall k :: 0 <= k < |parts| ==> IsPathPart(parts[k]) && Avoids(parts[k], IsSlashChar)
  {
    KeepParts(Split(s, IsSlashChar))
  }

  /** A path string that begins with `/`. */
  predicate IsAbsolute(s: string) {
    s != [] && s[0] == '/'
  }

  /** The root of a POSIX path string: exactly two leading `/` are kept as
      they are, one or more than two count as one, none is a relative path. */
  function PosixRoot(s: string): (root: string)
    ensures root == "" <==> !IsAbsolute(s)
    ensures root != "" ==> root[0] == '/'
  {
    if |s| >= 2 && s[0] == '/' && s[1] == '/' && (|s| == 2 || s[2] != '/') then "//"
    else if IsAbsolute(s) then "/"
    else ""
  }

  /** `str(PurePosixPath(dir) / name)` for a directory that is one relative
      part: a name with a root replaces the directory, and the name's empty
      and `.` pieces are dropped. */
  function JoinPath(dir: string, name: string): string {
    var root := PosixRoot(name);
    var parts := PathParts(name);
    if root != "" then root + Join("/", parts)
    else if parts == [] then dir
    else dir + "/" + Join("/", parts)
  }

  /** A bare root reads back as that root and no parts. */
  lemma BareRootParts(root: string)
    requires root == "/" || root == "//"
    ensures PosixRoot(root) == root
    ensures PathParts(root) == []
  {
    var empty: string := [];
    var slash: string := ['/'];
    assert IndexWhere(empty, IsSlashChar) == 0;
    assert Split(empty, IsSlashChar) == [empty];
    assert IndexWhere(slash, IsSlashChar) == 0;
    assert slash[..0] == empty && slash[1..] == empty;
    assert Split(slash, IsSlashChar) == [empty, empty];
    assert KeepParts([empty]) == [];
    assert KeepParts([empty, empty]) == [];
    if root == "//" {
      assert IndexWhere(root, IsSlashChar) == 0;
      assert root[..0] == empty && root[1..] == slash;
      assert Split(root, IsSlashChar) == [empty, empty, empty];
      assert KeepParts([empty, empty, empty]) == [];
    } else {
      assert root == slash;
    }
  }

  /** The empty pieces `split("/")` gives before the parts of a rooted path. */
  function RootPieces(root: string): seq<string> {
    if root == "/" then [""] else ["", ""]
  }

  /** Joining the root's empty pieces and the parts gives the root followed
      by the joined parts. */
  lemma RootedJoin(root: string, parts: seq<string>)
    requires root == "/" || root == "//"
    requires parts != []
    ensures Join("/", RootPieces(root) + parts) == root + Join("/", parts)
  {
    JoinCons("/", "", parts);
    if root == "//" {
      JoinCons("/", "", [""] + parts);
      assert RootPieces(root) + parts == [""] + ([""] + parts);
    }
  }

  /** The root's empty pieces are dropped, and the parts are kept. */
  lemma RootedKeep(root: string, parts: seq<string>)
    requires forall k :: 0 <= k < |parts| ==> IsPathPart(parts[k])
    ensures KeepParts(RootPieces(root) + parts) == parts
  {
    KeepPartsOfParts(parts);
    if root == "/" {
      KeepPartsDropsEmpty(parts);
    } else {
      KeepPartsDropsTwoEmpty(parts);
    }
  }

  /** Two empty pieces in front are dropped. */
  lemma KeepPartsDropsTwoEmpty(rest: seq<string>)
    ensures KeepParts(["", ""] + rest) == KeepParts(rest)
  {
    var once := [""] + rest;
    KeepPartsDropsEmpty(once);
    KeepPartsDropsEmpty(rest);
    assert ["", ""] + rest == [""] + once;
  }

  /** An empty piece in front is dropped. */
  lemma KeepPartsDropsEmpty(rest: seq<string>)
    ensures KeepParts([""] + rest) == KeepParts(rest)
  {
    assert ([""] + rest)[1..] == rest;
  }

  /** A rooted path string with at least one part after the root keeps
      that root. */
  lemma RootedRoot(root: string, parts: seq<string>)
    requires root == "/" || root == "//"
    requires parts != [] && IsPathPart(parts[0]) && Avoids(parts[0], IsSlashChar)
    ensures PosixRoot(root + Join("/", parts)) == root
  {
    var joined := Join("/", parts);
    JoinStartsWithFirst("/", parts);
    assert joined[0] == parts[0][0];
    assert (root + joined)[|root|] == joined[0];
  }

  /** A rooted path string made of `root` and at least one part reads back
      as exactly those. */
  lemma RootedPathParts(root: string, parts: seq<string>)
    requires root == "/" || root == "//"
    requires parts != []
    requires forall k :: 0 <= k < |parts| ==> IsPathPart(parts[k]) && Avoids(parts[k], IsSlashChar)
    ensures PosixRoot(root + Join("/", parts)) == root
    ensures PathParts(root + Join("/", parts)) == parts
  {
    RootedRoot(root, parts);
    RootedJoin(root, parts);
    RootPiecesAvoid(root, parts);
    SplitJoinSlash(RootPieces(root) + parts);
    RootedKeep(root, parts);
  }

  /** No piece of a rooted path string holds `/`. */
  lemma RootPiecesAvoid(root: string, parts: seq<string>)
    requires forall k :: 0 <= k < |parts| ==> Avoids(parts[k], IsSlashChar)
    ensures forall k :: 0 <= k < |RootPieces(root) + parts| ==> Avoids((RootPieces(root) + parts)[k], IsSlashChar)
  {
    var pieces := RootPieces(root) + parts;
    var n := |RootPieces(root)|;
    assert forall k :: n <= k < |pieces| ==> pieces[k] == parts[k - n];
  }

  /** Splitting on `/` undoes joining with `/`. */
  lemma SplitJoinSlash(pieces: seq<string>)
    requires pieces != []
    requires forall k :: 0 <= k < |pieces| ==> Avoids(pieces[k], IsSlashChar)
    ensures Split(Join("/", pieces), IsSlashChar) == pieces
  {
    SplitJoin('/', pieces, IsSlashChar);
  }

  /** Reading the joined path back gives the directory's part followed by
      the name's parts, or, under the name's root, the name's parts alone:
      `Path(str(p)) == p`. */
  lemma JoinPathParts(dir: string, name: string)
    requires IsPathPart(dir) && Avoids(dir, IsSlashChar)
    ensures PosixRoot(JoinPath(dir, name)) == PosixRoot(name)
    ensures PathParts(JoinPath(dir, name)) == (if PosixRoot(name) == "" then [dir] else []) + PathParts(name)
  {
    var root := PosixRoot(name);
    var parts := PathParts(name);
    if root != "" {
      if parts == [] {
        assert JoinPath(dir, name) == root;
        BareRootParts(root);
      } else {
        RootedPathParts(root, parts);
      }
    } else if parts == [] {
      assert IndexWhere(dir, IsSlashChar) == |dir|;
      assert Split(dir, IsSlashChar) == [dir];
    } else {
      var pieces := [dir] + parts;
      JoinCons("/", dir, parts);
      assert forall k :: 1 <= k < |pieces| ==> pieces[k] == parts[k - 1];
      SplitJoinSlash(pieces);
      KeepPartsOfParts(pieces);
    }
  }

  /** A name without `/` that is a part lies directly in the directory. */
  lemma JoinPathPlain(dir: string, name: string)
    requires IsPathPart(name) && Avoids(name, IsSlashChar)
    ensures JoinPath(dir, name) == dir + "/" + name
    ensures forall i :: |dir| < i < |JoinPath(dir, name)| ==> JoinPath(dir, name)[i] != '/'
  {
    assert IndexWhere(name, IsSlashChar) == |name|;
    assert Split(name, IsSlashChar) == [name];
    assert name[0] != '/';
    var path := dir + "/" + name;
    assert forall i :: |dir| < i < |path| ==> path[i] == name[i - |dir| - 1];
  }

  /** The file name: `<slug>-<hex[:6]>.md`. */
  function FileName(query: string, hex: UuidHex): (name: string)
    ensures EndsWith(name, FileSuffix(hex))
    ensures IsAbsolute(name) <==> IsAbsolute(Slug(query))
  {
    var name := Slug(query) + FileSuffix(hex);
    assert name[|name| - |FileSuffix(hex)|..] == FileSuffix(hex);
    name
  }

  /** `-<hex[:6]>.md`, the part of the file name after the slug. */
  function FileSuffix(hex: UuidHex): (suffix: string)
    ensures |suffix| == 10 && Avoids(suffix, IsSlashChar)
    ensures suffix[0] == '-'
    ensures forall i :: 1 <= i < 7 ==> IsHexDigit(suffix[i])
  {
    "-" + hex[..6] + ".md"
  }

  /** The file name's last part ends with the suffix, so there is always a
      last part. */
  lemma FileNameParts(query: string, hex: UuidHex)
    ensures var parts := PathParts(FileName(query, hex));
      parts != [] && EndsWith(parts[|parts| - 1], FileSuffix(hex))
  {
    var slug := Slug(query);
    var suffix := FileSuffix(hex);
    var segs := Split(slug, IsSlashChar);
    SplitAppend(slug, suffix, IsSlashChar);
    var last := segs[|segs| - 1] + suffix;
    assert Split(FileName(query, hex), IsSlashChar) == segs[..|segs| - 1] + [last];
    assert last[|last| - |suffix|..] == suffix;
    KeepPartsSnoc(segs[..|segs| - 1], last);
  }

  /** A joined path ends with whatever the name's last part ends with. */
  lemma JoinPathEndsWith(dir: string, name: string, suffix: string)
    requires PathParts(name) != []
    requires EndsWith(PathParts(name)[|PathParts(name)| - 1], suffix)
    ensures EndsWith(JoinPath(dir, name), suffix)
    ensures var path := JoinPath(dir, name);
      forall i :: |path| - |suffix| <= i < |path| ==> path[i] == suffix[i - (|path| - |suffix|)]
  {
    var parts := PathParts(name);
    var joined := Join("/", parts);
    var path := JoinPath(dir, name);
    JoinEndsWithLast("/", parts);
    EndsWithTrans(joined, parts[|parts| - 1], suffix);
    var prefix := if PosixRoot(name) != "" then PosixRoot(name) else dir + "/";
    assert path == prefix + joined;
    EndsWithConcat(prefix, joined);
    EndsWithTrans(path, joined, suffix);
    EndsWithAt(path, suffix);
  }

  /** A joined path with some part of the name's own lies under the
      directory exactly when the name has no root; otherwise it keeps the
      name's root. */
  lemma JoinPathUnderDir(dir: string, name: string)
    requires dir != [] && dir[0] != '/'
    requires PathParts(name) != []
    ensures StartsWith(JoinPath(dir, name), dir + "/") <==> !IsAbsolute(name)
    ensures IsAbsolute(name) ==> IsAbsolute(JoinPath(dir, name))
  {
    var path := JoinPath(dir, name);
    if !IsAbsolute(name) {
      assert path == dir + "/" + Join("/", PathParts(name));
      assert path[..|dir| + 1] == dir + "/";
    } else {
      assert path[0] == '/';
    }
  }

  /** `out_dir / f"{slug}-{uuid4().hex[:6]}.md"` as a string: inside
      `exports` unless the slug begins with `/`, which makes it an absolute
      path; the file name ends with `-`, six hexadecimal digits and `.md`. */
  function ExportPath(query: string, hex: UuidHex): (path: string)
    ensures StartsWith(path, ExportDir + "/") <==> !IsAbsolute(Slug(query))
    ensures IsAbsolute(Slug(query)) ==> IsAbsolute(path)
    ensures EndsWith(path, FileSuffix(hex))
    ensures path[|path| - 10] == '-'
    ensures forall i :: |path| - 9 <= i < |path| - 3 ==> IsHexDigit(path[i])
  {
    var name := FileName(query, hex);
    var path := JoinPath(ExportDir, name);
    var suffix := FileSuffix(hex);
    FileNameParts(query, hex);
    JoinPathEndsWith(ExportDir, name, suffix);
    JoinPathUnderDir(ExportDir, name);
    path
  }

  /** A query without `/` names a file directly inside `exports`: the path
      is the directory, `/` and the file name, with no `/` after the
      directory's own. */
  lemma ExportPathDirectlyInExports(query: string, hex: UuidHex)
    requires Avoids(query, IsSlashChar)
    ensures ExportPath(query, hex) == ExportDir + "/" + Slug(query) + "-" + hex[..6] + ".md"
    ensures forall i :: |ExportDir| < i < |ExportPath(query, hex)| ==> ExportPath(query, hex)[i] != '/'
  {
    SlugAvoidsSlash(query);
    var slug := Slug(query);
    var suffix := FileSuffix(hex);
    AvoidsConcatChars(slug, suffix, IsSlashChar);
    JoinPathPlain(ExportDir, slug + suffix);
    assert ExportDir + "/" + (slug + suffix) == ExportDir + "/" + slug + "-" + hex[..6] + ".md";
  }

  /** A query without `/` gives a slug without `/`. */
  lemma SlugAvoidsSlash(query: string)
    requires Avoids(query, IsSlashChar)
    ensures Avoids(Slug(query), IsSlashChar)
  {
    var lower := Lower(query);
    assert Avoids(lower, IsSlashChar);
    WordsAvoid(lower, IsSlashChar);
    JoinAvoids("-", Words(lower), IsSlashChar);
  }

  /** Where the file lands: the parts of the path are `exports` and the
      file name's parts, or the file name's parts alone under a root when
      the slug begins with `/`. */
  lemma ExportPathParts(query: string, hex: UuidHex)
    ensures PosixRoot(ExportPath(query, hex)) == PosixRoot(FileName(query, hex))
    ensures PathParts(ExportPath(query, hex))
      == (if IsAbsolute(Slug(query)) then [] else [ExportDir]) + PathParts(FileName(query, hex))
  {
    JoinPathParts(ExportDir, FileName(query, hex));
  }

  /** A query that is an absolute path, such as `/tmp/notes`, is not
      written inside `exports`: `pathlib` lets the absolute name replace the
      directory. */
  lemma ExportPathOfAbsoluteQuery(hex: UuidHex)
    ensures ExportPath("/tmp/notes", hex) == "/tmp/notes" + FileSuffix(hex)
  {
    SlugOfTmpNotes();
    ExportPathOfAbsoluteSlug("/tmp/notes", hex, "tmp", "notes");
  }

  /** A slug `/<a>/<b>` made of two parts is written as itself: the file is
      `/<a>/<b>-<hex[:6]>.md`, outside `exports`. */
  lemma ExportPathOfAbsoluteSlug(query: string, hex: UuidHex, a: string, b: string)
    requires IsPathPart(a) && Avoids(a, IsSlashChar) && Avoids(b, IsSlashChar)
    requires Slug(query) == "/" + a + "/" + b
    ensures ExportPath(query, hex) == Slug(query) + FileSuffix(hex)
  {
    var suffix := FileSuffix(hex);
    var last := b + suffix;
    AvoidsConcatChars(b, suffix, IsSlashChar);
    var name := FileName(query, hex);
    assert name == "/" + (a + "/" + last);
    AbsoluteNameParts(a, last);
    JoinCons("/", a, [last]);
  }

  /** `/tmp/notes` is already a slug. */
  lemma SlugOfTmpNotes()
    ensures Slug("/tmp/notes") == "/tmp/notes"
  {
    var query := "/tmp/notes";
    assert NoSpace(query) && IsLowerCase(query);
    SlugOfShortQuery([query]);
  }

  /** `/<a>/<b>` with parts `a` and `b` has the root `/` and those parts. */
  lemma AbsoluteNameParts(a: string, b: string)
    requires IsPathPart(a) && Avoids(a, IsSlashChar)
    requires IsPathPart(b) && Avoids(b, IsSlashChar)
    ensures PosixRoot("/" + (a + "/" + b)) == "/"
    ensures PathParts("/" + (a + "/" + b)) == [a, b]
  {
    JoinCons("/", a, [b]);
    RootedPathParts("/", [a, b]);
  }

  /** What `export_to_local_doc` leaves behind: the returned link and the
      text written to the file it names. */
  datatype ExportedDoc = ExportedDoc(link: string, path: string, content: string)

  /** `export_to_local_doc(query, article_markdown)` */
  function ExportToLocalDoc(query: string, markdown: string, hex: UuidHex, resolve: string -> string): (d: ExportedDoc)
    ensures d.content == markdown
    ensures d.path == ExportPath(query, hex) && d.link == resolve(d.path)
  {
    var path := ExportPath(query, hex);
    ExportedDoc(resolve(path), path, markdown)
  }
}
