/**
 * The upload middleware: the file filter on the original name's extension,
 * the size limit, the destination directory and the stored file name. The
 * clock and the random number in the file name are parameters; creating the
 * directory and writing the file are not modelled.
 */
module Uploads {
  import opened Wrappers
  import opened Strings
  import opened JsonValues

  /** multer's `limits.fileSize`: 50 MiB. */
  const MaxFileSize: nat := 50 * 1024 * 1024

  /** multer refuses a file of more than 52428800 bytes. */
  predicate WithinSizeLimit(size: nat) {
    size <= MaxFileSize
  }

  lemma SizeLimitInBytes(size: nat)
    ensures WithinSizeLimit(size) <==> size <= 52428800
  {
  }

  /** The alternatives of `/jpeg|jpg|png|mp4|mov|avi|webp/`. */
  const AllowedWords: seq<string> := ["jpeg", "jpg", "png", "mp4", "mov", "avi", "webp"]

  /** The position of the last `c` in `s`. */
  function LastIndexOf(s: string, c: char): (r: Option<nat>)
    ensures r.Some? ==> r.value < |s| && s[r.value] == c && forall i :: r.value < i < |s| ==> s[i] != c
    ensures r.None? ==> forall i :: 0 <= i < |s| ==> s[i] != c
  {
    if s == [] then None
    else if s[|s| - 1] == c then Some(|s| - 1)
    else LastIndexOf(s[..|s| - 1], c)
  }

  /** `s` without its trailing slashes. */
  function StripTrailingSlashes(s: string): (r: string)
    ensures r <= s
    ensures r == [] || r[|r| - 1] != '/'
    ensures forall i :: |r| <= i < |s| ==> s[i] == '/'
  {
    if s != [] && s[|s| - 1] == '/' then StripTrailingSlashes(s[..|s| - 1]) else s
  }

  /** The last path segment. */
  function AfterLastSlash(s: string): (r: string)
    ensures forall i :: 0 <= i < |r| ==> r[i] != '/'
    ensures |r| <= |s| && r == s[|s| - |r|..]
  {
    match LastIndexOf(s, '/')
    case None => s
    case Some(i) => s[i + 1..]
  }

  /**
   * `path.extname` (POSIX): the last segment from its last dot on, or
   * nothing when it has no dot, when the dot begins the segment, or when the
   * segment is `..`.
   */
  function ExtName(name: string): (e: string)
    ensures e != [] ==> e[0] == '.' && forall i :: 0 < i < |e| ==> e[i] != '.' && e[i] != '/'
  {
    var b := AfterLastSlash(StripTrailingSlashes(name));
    match LastIndexOf(b, '.')
    case None => ""
    case Some(d) => if d == 0 || b == ".." then "" else b[d..]
  }

  /** The last `c` of `s` is at `k`. */
  lemma LastIndexOfIs(s: string, c: char, k: nat)
    requires k < |s| && s[k] == c && forall i :: k < i < |s| ==> s[i] != c
    ensures LastIndexOf(s, c) == Some(k)
  {
  }

  /**
   * The extension of a name without slashes whose last dot is at `d`: empty
   * when the dot begins the name or the name is `..`, else from the dot on.
   */
  lemma ExtNameOfSegment(b: string, d: nat)
    requires forall i :: 0 <= i < |b| ==> b[i] != '/'
    requires d < |b| && b[d] == '.' && forall i :: d < i < |b| ==> b[i] != '.'
    ensures ExtName(b) == (if d == 0 || b == ".." then "" else b[d..])
  {
    assert StripTrailingSlashes(b) == b;
    assert LastIndexOf(b, '/').None?;
    LastIndexOfIs(b, '.', d);
  }

  /** The same, for a dot past the start of a name that does not begin with a dot. */
  lemma ExtNameFromDot(b: string, d: nat)
    requires forall i :: 0 <= i < |b| ==> b[i] != '/'
    requires 0 < d < |b| && b[0] != '.' && b[d] == '.' && forall i :: d < i < |b| ==> b[i] != '.'
    ensures ExtName(b) == b[d..]
  {
    ExtNameOfSegment(b, d);
    assert b != "..";
  }

  /** A name without slashes or dots has no extension. */
  lemma ExtNameOfPlain(b: string)
    requires forall i :: 0 <= i < |b| ==> b[i] != '/' && b[i] != '.'
    ensures ExtName(b) == ""
  {
    assert b == [] || StripTrailingSlashes(b) == b;
    assert LastIndexOf(b, '/').None?;
  }

  /** The lowercased extension contains one of the allowed words. */
  predicate AllowedExtension(ext: string) {
    exists i :: 0 <= i < |AllowedWords| && Contains(Lower(ext), AllowedWords[i])
  }

  datatype Verdict = Accept | Refuse(message: string)

  /** `fileFilter`: `allowed.test(path.extname(originalname).toLowerCase())`. */
  function FileFilter(originalName: string): (v: Verdict)
    ensures v.Accept? <==> exists i :: 0 <= i < |AllowedWords| && Contains(Lower(ExtName(originalName)), AllowedWords[i])
    ensures v.Refuse? ==> v.message == "Invalid File Type"
  {
    if AllowedExtension(ExtName(originalName)) then Accept else Refuse("Invalid File Type")
  }

  /**
   * `destination`: the directory `uploads/<t>` for `t` the route's `type`,
   * else the body's `type`, else "misc"; `None` when the chosen value is not
   * a string, on which `path.join` throws.
   */
  function Destination(paramType: Option<string>, bodyType: Option<Json>): (d: Option<string>)
    ensures paramType.Some? && paramType.value != "" ==> d == Some("uploads/" + paramType.value)
    ensures (paramType.None? || paramType.value == "") && !Truthy(bodyType) ==> d == Some("uploads/misc")
    ensures (paramType.None? || paramType.value == "") && Truthy(bodyType) ==>
      d == (if bodyType.value.JStr? then Some("uploads/" + bodyType.value.s) else None)
  {
    var t := if paramType.Some? && paramType.value != "" then Some(JStr(paramType.value)) else bodyType;
    var chosen := if Truthy(t) then t.value else JStr("misc");
    assert "uploads/" + "misc" == "uploads/misc";
    if chosen.JStr? then Some("uploads/" + chosen.s) else None
  }

  /** `filename`: `Date.now() + "-" + Math.round(Math.random() * 1e9) + path.extname(originalname)`. */
  function FileName(now: nat, random: nat, originalName: string): string {
    NatToString(now) + "-" + NatToString(random) + ExtName(originalName)
  }

  /** The time stamp and random part of a stored name: digits around a hyphen, so no dot or slash. */
  lemma StampShape(now: nat, random: nat)
    ensures var prefix := NatToString(now) + "-" + NatToString(random);
            prefix != [] && IsDigit(prefix[0])
            && forall i :: 0 <= i < |prefix| ==> IsDigit(prefix[i]) || prefix[i] == '-'
  {
    var prefix := NatToString(now) + "-" + NatToString(random);
    var a := NatToString(now);
    NatToStringDigits(now);
    NatToStringDigits(random);
    assert prefix[0] == a[0];
    forall i | 0 <= i < |prefix| ensures IsDigit(prefix[i]) || prefix[i] == '-' {
      if i < |a| { assert prefix[i] == a[i]; }
      else if i > |a| { assert prefix[i] == NatToString(random)[i - |a| - 1]; }
    }
  }

  /** The stored name ends with the original extension, and `path.extname` reads that extension back. */
  lemma FileNameKeepsExtension(now: nat, random: nat, originalName: string)
    ensures var f := FileName(now, random, originalName);
            var e := ExtName(originalName);
            |e| <= |f| && f[|f| - |e|..] == e && ExtName(f) == e
  {
    var e := ExtName(originalName);
    var prefix := NatToString(now) + "-" + NatToString(random);
    StampShape(now, random);
    StampThenExtension(prefix, e);
    assert (prefix + e)[|prefix + e| - |e|..] == e;
  }

  /** A stamp of digits and hyphens followed by an extension has exactly that extension. */
  lemma StampThenExtension(prefix: string, e: string)
    requires prefix != [] && IsDigit(prefix[0])
    requires forall i :: 0 <= i < |prefix| ==> IsDigit(prefix[i]) || prefix[i] == '-'
    requires e == [] || (e[0] == '.' && forall i :: 0 < i < |e| ==> e[i] != '.' && e[i] != '/')
    ensures ExtName(prefix + e) == e
  {
    var f := prefix + e;
    var n := |prefix|;
    forall i | 0 <= i < n ensures f[i] != '/' && f[i] != '.' {
      assert f[i] == prefix[i];
    }
    if e == [] {
      assert f == prefix;
      ExtNameOfPlain(f);
    } else {
      forall i | n <= i < |f| ensures f[i] == e[i - n] {
      }
      forall i | n < i < |f| ensures f[i] != '.' && f[i] != '/' {
        assert f[i] == e[i - n];
      }
      assert f[n] == '.' && f[0] == prefix[0];
      ExtNameOfSegment(f, n);
      assert f[n..] == e;
    }
  }


  /** `s` has neither dots nor slashes, checked character by character. */
  predicate Plain(s: string) {
    s == [] || (s[0] != '.' && s[0] != '/' && Plain(s[1..]))
  }

  lemma {:induction false} PlainAll(s: string)
    requires Plain(s)
    ensures forall i :: 0 <= i < |s| ==> s[i] != '.' && s[i] != '/'
  {
    if s != [] {
      PlainAll(s[1..]);
      assert forall i :: 0 < i < |s| ==> s[i] == s[1..][i - 1];
    }
  }

  /** `s` has no slashes, checked character by character. */
  predicate Unslashed(s: string) {
    s == [] || (s[0] != '/' && Unslashed(s[1..]))
  }

  lemma {:induction false} UnslashedAll(s: string)
    requires Unslashed(s)
    ensures forall i :: 0 <= i < |s| ==> s[i] != '/'
  {
    if s != [] {
      UnslashedAll(s[1..]);
      assert forall i :: 0 < i < |s| ==> s[i] == s[1..][i - 1];
    }
  }

  /** Dots before the last one do not matter: `a.b.c` has the extension `.c`. */
  lemma ExtNameOfLast(stem: string, ext: string)
    requires stem != [] && stem[0] != '.' && Unslashed(stem)
    requires ext != [] && ext[0] == '.' && Plain(ext[1..])
    ensures ExtName(stem + ext) == ext
  {
    var b := stem + ext;
    UnslashedAll(stem);
    PlainAll(ext[1..]);
    assert forall i :: 0 < i < |ext| ==> ext[i] == ext[1..][i - 1];
    assert forall i :: |stem| <= i < |b| ==> b[i] == ext[i - |stem|];
    assert forall i :: 0 <= i < |stem| ==> b[i] == stem[i];
    ExtNameFromDot(b, |stem|);
    assert b[|stem|..] == ext;
  }

  /** A name that is a dot and a plain word is a dot file: it has no extension. */
  lemma ExtNameOfDotFile(w: string)
    requires Plain(w)
    ensures ExtName("." + w) == ""
  {
    PlainAll(w);
    var b := "." + w;
    assert forall i :: 0 < i < |b| ==> b[i] == w[i - 1];
    ExtNameOfSegment(b, 0);
  }

  /** A stored file is accepted exactly when the uploaded one was: the extension survives the renaming. */
  lemma StoredNameFiltersAlike(now: nat, random: nat, originalName: string)
    ensures FileFilter(FileName(now, random, originalName)) == FileFilter(originalName)
  {
    FileNameKeepsExtension(now, random, originalName);
  }

  /** An allowed word found at position `k` of the lowercased extension lets it pass. */
  lemma AllowedAt(ext: string, k: nat, w: nat)
    requires w < |AllowedWords| && k + |AllowedWords[w]| <= |Lower(ext)|
    requires Lower(ext)[k..k + |AllowedWords[w]|] == AllowedWords[w]
    ensures AllowedExtension(ext)
  {
    ContainsAt(Lower(ext), AllowedWords[w], k);
  }

  /** A word whose first letter does not occur in `hay` does not occur in it. */
  lemma {:induction false} NotContainsFirst(hay: string, w: string)
    requires w != [] && forall i :: 0 <= i < |hay| ==> hay[i] != w[0]
    ensures !Contains(hay, w)
    decreases |hay|
  {
    if hay != [] {
      assert hay[0] != w[0];
      NotContainsFirst(hay[1..], w);
    }
  }

  /** No allowed word occurs in the empty extension. */
  lemma EmptyRefused()
    ensures !AllowedExtension("")
  {
    assert Lower("") == "";
    forall i | 0 <= i < |AllowedWords| ensures !Contains("", AllowedWords[i]) {
      NotContainsFirst("", AllowedWords[i]);
    }
  }

  /** `.exe` contains none of the allowed words. */
  lemma ExeRefused()
    ensures !AllowedExtension(".exe")
  {
    assert Lower(".exe") == ".exe";
    forall i | 0 <= i < |AllowedWords| ensures !Contains(".exe", AllowedWords[i]) {
      assert AllowedWords[i][0] in "jpmaw";
      NotContainsFirst(".exe", AllowedWords[i]);
    }
  }

  /** Only the last extension is filtered: `photo.png.exe` is judged by `.exe` alone. */
  lemma FilterJudgesLastExtension(stem: string, ext: string)
    requires stem != [] && stem[0] != '.' && Unslashed(stem)
    requires ext != [] && ext[0] == '.' && Plain(ext[1..])
    ensures FileFilter(stem + ext) == if AllowedExtension(ext) then Accept else Refuse("Invalid File Type")
  {
    ExtNameOfLast(stem, ext);
  }

  /** The case of the extension does not matter: `.PNG` is judged as `.png`. */
  lemma FilterIgnoresCase(ext: string)
    ensures AllowedExtension(Lower(ext)) == AllowedExtension(ext)
  {
    LowerIdempotent(ext);
  }

  /** The test is case-blind and unanchored: `.PNG` passes, and so does `.pngx`. */
  lemma UpperCaseAndLongerPass()
    ensures AllowedExtension(".PNG") && AllowedExtension(".pngx")
  {
    assert Lower(".PNG") == ".png";
    AllowedAt(".PNG", 1, 2);
    assert Lower(".pngx") == ".pngx";
    AllowedAt(".pngx", 1, 2);
  }

  /** A dot file such as `.png` has no extension, so it is refused. */
  lemma DotFileRefused(w: string)
    requires Plain(w)
    ensures FileFilter("." + w) == Refuse("Invalid File Type")
  {
    ExtNameOfDotFile(w);
    EmptyRefused();
  }
}
