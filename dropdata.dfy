/**
 * DropContext: the view of a dragged data object handed to the drop
 * callbacks (lib/rwin/windows/WindowsWindowManager.cpp). It probes the
 * object's formats once, lists dropped files and splits dropped text into
 * non-empty lines. The OLE data object is an input value: which formats
 * enumerate, and what GetData, GlobalLock and DragQueryFileW yield.
 */
module DropData {
  import opened Wrappers
  import opened Win32

  /**
   * A text medium returned by GetData: whether it is a non-null global
   * memory handle, and the text GlobalLock exposes (None when the lock
   * fails), already converted to UTF-8 for CF_UNICODETEXT.
   */
  datatype Medium = Medium(hglobal: bool, contents: Option<string>)

  /** A CF_HDROP medium: whether GlobalLock succeeds, and per index the path DragQueryFileW copies (None when it copies nothing). */
  datatype FileMedium = FileMedium(locked: bool, entries: seq<Option<string>>)

  /**
   * The dragged object: the enumerated format list (None when EnumFormatEtc
   * fails) and, per format, the medium GetData returns (None when it fails).
   */
  datatype DataObject = DataObject(
    formats: Option<seq<int>>,
    unicodeText: Option<Medium>,
    ansiText: Option<Medium>,
    files: Option<FileMedium>)

  /** The two probes over a format list: some format is CF_HDROP; some is CF_UNICODETEXT or CF_TEXT. */
  function ScanFormats(fmts: seq<int>): (r: (bool, bool))
    ensures r.0 <==> CF_HDROP in fmts
    ensures r.1 <==> CF_UNICODETEXT in fmts || CF_TEXT in fmts
  {
    if fmts == [] then (false, false)
    else
      var (files, text) := ScanFormats(fmts[..|fmts| - 1]);
      var f := fmts[|fmts| - 1];
      assert fmts == fmts[..|fmts| - 1] + [f];
      if f == CF_HDROP then (true, text)
      else if f == CF_UNICODETEXT || f == CF_TEXT then (files, true)
      else (files, text)
  }

  /**
   * The probes of a data object: files iff CF_HDROP is enumerated, text iff
   * CF_UNICODETEXT or CF_TEXT is; a failed enumeration leaves both false.
   */
  function Probes(data: DataObject): (r: (bool, bool))
    ensures data.formats.None? ==> r == (false, false)
    ensures data.formats.Some? ==> (r.0 <==> CF_HDROP in data.formats.value)
    ensures data.formats.Some? ==> (r.1 <==> CF_UNICODETEXT in data.formats.value || CF_TEXT in data.formats.value)
  {
    if data.formats.None? then (false, false) else ScanFormats(data.formats.value)
  }

  /** The paths a file medium yields, in index order, skipping indices DragQueryFileW copies nothing for. */
  function Present(entries: seq<Option<string>>): (paths: seq<string>)
    ensures |paths| <= |entries|
    ensures forall p :: p in paths <==> Some(p) in entries
  {
    if entries == [] then []
    else
      var rest := Present(entries[..|entries| - 1]);
      var e := entries[|entries| - 1];
      assert entries == entries[..|entries| - 1] + [e];
      if e.Some? then rest + [e.value] else rest
  }

  /** One more entry adds its path, if it has one. */
  lemma PresentExtends(entries: seq<Option<string>>, i: nat)
    requires i < |entries|
    ensures Present(entries[..i + 1]) == Present(entries[..i]) + (if entries[i].Some? then [entries[i].value] else [])
  {
    assert entries[..i + 1][..i] == entries[..i];
  }

  /** The segments of s between newline characters, from the first to the last (there is always at least one). */
  function Split(s: string): (parts: seq<string>)
    ensures |parts| >= 1
  {
    if s == [] then [[]]
    else
      var parts := Split(s[..|s| - 1]);
      var c := s[|s| - 1];
      if c == '\n' then parts + [[]]
      else parts[..|parts| - 1] + [parts[|parts| - 1] + [c]]
  }

  /** The segments joined back with newlines. */
  function Join(parts: seq<string>): string
    requires |parts| >= 1
  {
    if |parts| == 1 then parts[0] else Join(parts[..|parts| - 1]) + ['\n'] + parts[|parts| - 1]
  }

  /**
   * What successive std::getline calls on s read: the segments, except the
   * empty one after a final newline (or of the empty string).
   */
  function Lines(s: string): (lines: seq<string>)
    ensures lines <= Split(s) && |Split(s)| <= |lines| + 1
    ensures |lines| < |Split(s)| ==> Split(s)[|lines|] == []
  {
    var parts := Split(s);
    if parts[|parts| - 1] == [] then parts[..|parts| - 1] else parts
  }

  /** The lines that are not empty, in order. */
  function NonEmpty(lines: seq<string>): (kept: seq<string>)
    ensures |kept| <= |lines|
    ensures forall l :: l in kept <==> l in lines && l != []
  {
    if lines == [] then []
    else
      var rest := NonEmpty(lines[..|lines| - 1]);
      var l := lines[|lines| - 1];
      assert lines == lines[..|lines| - 1] + [l];
      if l != [] then rest + [l] else rest
  }

  /** Joining after a new empty segment adds one newline. */
  lemma JoinNewSegment(parts: seq<string>)
    requires |parts| >= 1
    ensures Join(parts + [[]]) == Join(parts) + ['\n']
  {
    assert (parts + [[]])[..|parts|] == parts;
  }

  /** Join appends its last segment after a newline, unless it is the only one. */
  lemma JoinSnoc(init: seq<string>, last: string)
    ensures Join(init + [last]) == if init == [] then last else Join(init) + ['\n'] + last
  {
    var p := init + [last];
    assert p[..|p| - 1] == init;
  }

  /** Joining after extending the last segment by c adds c. */
  lemma JoinExtendLast(init: seq<string>, last: string, c: char)
    ensures Join(init + [last + [c]]) == Join(init + [last]) + [c]
  {
    JoinSnoc(init, last);
    JoinSnoc(init, last + [c]);
    if init != [] {
      var head := Join(init) + ['\n'];
      assert head + (last + [c]) == (head + last) + [c];
    }
  }

  /** Splitting then joining with newlines gives the text back. */
  lemma {:induction false} SplitJoin(s: string)
    ensures Join(Split(s)) == s
  {
    if s != [] {
      var init := s[..|s| - 1];
      var c := s[|s| - 1];
      var parts := Split(init);
      SplitJoin(init);
      assert s == init + [c];
      if c == '\n' {
        assert Split(s) == parts + [[]];
        JoinNewSegment(parts);
      } else {
        var last := parts[|parts| - 1];
        assert parts == parts[..|parts| - 1] + [last];
        assert Split(s) == parts[..|parts| - 1] + [last + [c]];
        JoinExtendLast(parts[..|parts| - 1], last, c);
      }
    }
  }

  /** No segment holds a newline; a carriage return is an ordinary character. */
  lemma {:induction false} SplitHasNoNewline(s: string)
    ensures forall part :: part in Split(s) ==> '\n' !in part
  {
    if s != [] {
      SplitHasNoNewline(s[..|s| - 1]);
    }
  }

  /** Dropping the final empty segment does not change the non-empty lines. */
  lemma NonEmptyIgnoresTrailingEmpty(parts: seq<string>)
    requires |parts| >= 1 && parts[|parts| - 1] == []
    ensures NonEmpty(parts) == NonEmpty(parts[..|parts| - 1])
  {
  }

  /** The non-empty lines getline reads are exactly the non-empty newline-separated segments, none holding a newline. */
  lemma LinesAreSegments(s: string)
    ensures NonEmpty(Lines(s)) == NonEmpty(Split(s))
    ensures forall l :: l in NonEmpty(Lines(s)) ==> l != [] && '\n' !in l
  {
    SplitHasNoNewline(s);
    var parts := Split(s);
    if parts[|parts| - 1] == [] {
      NonEmptyIgnoresTrailingEmpty(parts);
    }
  }

  /** Text without a newline is a single segment. */
  lemma {:induction false} SplitSingle(t: string)
    requires '\n' !in t
    ensures Split(t) == [t]
  {
    if t != [] {
      var init := t[..|t| - 1];
      assert '\n' !in init by {
        forall i | 0 <= i < |init| ensures init[i] != '\n' {
          assert init[i] == t[i];
        }
      }
      SplitSingle(init);
      assert t == init + [t[|t| - 1]];
    }
  }

  /** A final newline starts an empty segment. */
  lemma SplitNewline(s: string)
    ensures Split(s + ['\n']) == Split(s) + [[]]
  {
    var u := s + ['\n'];
    assert u[..|u| - 1] == s && u[|u| - 1] == '\n';
  }

  /** A newline followed by text without one starts exactly one more segment. */
  lemma {:induction false} SplitAfterNewline(s: string, t: string)
    requires '\n' !in t
    ensures Split(s + ['\n'] + t) == Split(s) + [t]
    decreases |t|
  {
    if t == [] {
      assert s + ['\n'] + t == s + ['\n'];
      SplitNewline(s);
    } else {
      var init := t[..|t| - 1];
      var c := t[|t| - 1];
      assert t == init + [c];
      assert '\n' !in init && c != '\n';
      SplitAfterNewline(s, init);
      var u := s + ['\n'] + t;
      assert u[..|u| - 1] == s + ['\n'] + init && u[|u| - 1] == c;
      var parts := Split(s) + [init];
      assert Split(u) == parts[..|parts| - 1] + [parts[|parts| - 1] + [c]];
      assert parts[..|parts| - 1] == Split(s);
    }
  }

  /**
   * A Windows line ending keeps its carriage return: the line before it ends
   * in '\r', and the text after it is read as a line too.
   */
  lemma CarriageReturnKept(a: string, b: string)
    requires '\n' !in a && '\n' !in b && b != []
    ensures Lines(a + ['\r'] + ['\n'] + b) == [a + ['\r'], b]
    ensures Lines(a + ['\r'] + ['\n']) == [a + ['\r']]
  {
    var line := a + ['\r'];
    assert '\n' !in line;
    SplitSingle(line);
    SplitAfterNewline(line, b);
    SplitNewline(line);
  }

  /**
   * Empty lines are read but not added: two newlines, a line x and a final
   * newline read as two empty lines and x, and only x remains.
   */
  lemma EmptyLinesDropped(x: string)
    requires '\n' !in x && x != []
    ensures Lines(['\n', '\n'] + x + ['\n']) == ["", "", x]
    ensures NonEmpty(Lines(['\n', '\n'] + x + ['\n'])) == [x]
  {
    var one: string := ['\n'];
    var t := one + ['\n'] + x;
    SplitNewline([]);
    assert [] + ['\n'] == one;
    SplitAfterNewline(one, x);
    assert Split(t) == ["", "", x];
    SplitNewline(t);
    assert t + ['\n'] == ['\n', '\n'] + x + ['\n'];
    var lines: seq<string> := ["", "", x];
    assert (lines + [""])[..3] == lines;
    assert lines[..2] == ["", ""] && ["", ""][..1] == [""] && [""][..0] == [];
  }

  class DropContext {
    /** The dragged object, kept for the lifetime of the context. */
    const data: DataObject
    const hasFiles: bool
    const hasText: bool

    /** The probes match the enumerated formats. */
    ghost predicate Valid()
    {
      (hasFiles, hasText) == Probes(data)
    }

    /** Enumerates the formats once and records the two probes. */
    constructor (dataObject: DataObject)
      ensures data == dataObject
      ensures Valid()
    {
      var files, text := false, false;
      if dataObject.formats.Some? {
        var fmts := dataObject.formats.value;
        var i := 0;
        while i < |fmts|
          invariant 0 <= i <= |fmts|
          invariant (files, text) == ScanFormats(fmts[..i])
        {
          assert fmts[..i + 1][..i] == fmts[..i];
          if fmts[i] == CF_HDROP {
            files := true;
          } else if fmts[i] == CF_UNICODETEXT || fmts[i] == CF_TEXT {
            text := true;
          }
          i := i + 1;
        }
        assert fmts[..|fmts|] == fmts;
      }
      data := dataObject;
      hasFiles := files;
      hasText := text;
    }

    /** HasFiles: true exactly when some enumerated format is CF_HDROP. */
    function HasFiles(): (r: bool)
      requires Valid()
      ensures r <==> data.formats.Some? && CF_HDROP in data.formats.value
    {
      hasFiles
    }

    /** HasText: true exactly when some enumerated format is CF_UNICODETEXT or CF_TEXT. */
    function HasText(): (r: bool)
      requires Valid()
      ensures r <==> data.formats.Some? && (CF_UNICODETEXT in data.formats.value || CF_TEXT in data.formats.value)
    {
      hasText
    }

    /**
     * GetFiles: appends the path of every file DragQueryFileW copies, in
     * index order, to the caller's list. It succeeds whenever GetData and
     * GlobalLock succeed, even when no file is listed; otherwise the list is
     * left as it was.
     */
    method GetFiles(paths: seq<string>) returns (paths': seq<string>, ok: bool)
      ensures ok <==> data.files.Some? && data.files.value.locked
      ensures ok ==> paths' == paths + Present(data.files.value.entries)
      ensures !ok ==> paths' == paths
    {
      paths' := paths;
      ok := false;
      if data.files.Some? && data.files.value.locked {
        var entries := data.files.value.entries;
        var i := 0;
        while i < |entries|
          invariant 0 <= i <= |entries|
          invariant paths' == paths + Present(entries[..i])
        {
          PresentExtends(entries, i);
          if entries[i].Some? {
            assert paths' + [entries[i].value] == paths + (Present(entries[..i]) + [entries[i].value]);
            paths' := paths' + [entries[i].value];
          }
          i := i + 1;
        }
        assert entries[..|entries|] == entries;
        ok := true;
      }
    }

    /** The text medium GetText reads: CF_UNICODETEXT, or CF_TEXT when that fails; none only when both fail. */
    function TextMedium(): (m: Option<Medium>)
      ensures m.None? <==> data.unicodeText.None? && data.ansiText.None?
      ensures data.unicodeText.Some? ==> m == data.unicodeText
      ensures data.unicodeText.None? ==> m == data.ansiText
    {
      if data.unicodeText.Some? then data.unicodeText else data.ansiText
    }

    /**
     * GetText: reads the text line by line with getline and appends each
     * non-empty line to the caller's list. It succeeds exactly when at least
     * one line was appended; when neither text format can be fetched, the
     * medium is not a global handle or the lock fails, nothing is appended.
     */
    method GetText(text: seq<string>) returns (text': seq<string>, success: bool)
      ensures TextMedium().None? || !TextMedium().value.hglobal || TextMedium().value.contents.None? ==>
        text' == text && !success
      ensures TextMedium().Some? && TextMedium().value.hglobal && TextMedium().value.contents.Some? ==>
        var added := NonEmpty(Split(TextMedium().value.contents.value));
        text' == text + added && (success <==> added != [])
    {
      text' := text;
      success := false;
      var medium := TextMedium();
      if medium.Some? && medium.value.hglobal && medium.value.contents.Some? {
        var output := medium.value.contents.value;
        var lines := Lines(output);
        var i := 0;
        while i < |lines|
          invariant 0 <= i <= |lines|
          invariant text' == text + NonEmpty(lines[..i])
          invariant success <==> NonEmpty(lines[..i]) != []
        {
          assert lines[..i + 1][..i] == lines[..i];
          if lines[i] != [] {
            text' := text' + [lines[i]];
            success := true;
          }
          i := i + 1;
        }
        assert lines[..|lines|] == lines;
        LinesAreSegments(output);
      }
    }
  }
}
