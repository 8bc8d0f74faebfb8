/** The builder's development-server endpoints (builder/vite.config.ts):
    the project-name sanitiser shared by save, load and delete, the project
    list, and the scan of the animations directory into catalog entries.
    The file system is a parameter: a directory is the list of its file
    names, and a project file is known by its modification time. */
module BuilderApi {
  import opened Common
  import Sorting
  import AssetCatalog

  // ── Project names ──

  /** `[a-zA-Z0-9가-힣_-]` */
  predicate IsSafeChar(c: char)
  {
    ('a' <= c <= 'z') || ('A' <= c <= 'Z') || ('0' <= c <= '9') || ('가' <= c <= '힣') || c == '_' || c == '-'
  }

  /** `name.replace(/[^a-zA-Z0-9가-힣_-]/g, "_")` */
  function Sanitize(name: string): (r: string)
    ensures |r| == |name|
    ensures forall i :: 0 <= i < |name| ==> r[i] == (if IsSafeChar(name[i]) then name[i] else '_')
  {
    seq(|name|, i requires 0 <= i < |name| => if IsSafeChar(name[i]) then name[i] else '_')
  }

  /** A sanitised name is made of safe characters only, so it has no `/`
      and no `.` and cannot leave the projects directory. */
  lemma SanitizedIsSafe(name: string)
    ensures forall i :: 0 <= i < |name| ==> IsSafeChar(Sanitize(name)[i])
    ensures forall i :: 0 <= i < |name| ==> Sanitize(name)[i] != '/' && Sanitize(name)[i] != '.'
  {
  }

  /** Sanitising twice changes nothing more. */
  lemma SanitizeIdempotent(name: string)
    ensures Sanitize(Sanitize(name)) == Sanitize(name)
  {
    SanitizedIsSafe(name);
  }

  /** `data.name || "untitled"`: a missing or empty name. */
  function SaveName(name: Option<string>): (r: string)
    ensures r != ""
    ensures name.Some? && name.value != "" ==> r == name.value
    ensures name.None? || name.value == "" ==> r == "untitled"
  {
    if name.Some? && name.value != "" then name.value else "untitled"
  }

  function ProjectFileName(safeName: string): string
  {
    safeName + ".json"
  }

  /** `f.replace(/\.json$/, "")` */
  function StripJson(f: string): (r: string)
    ensures EndsWith(f, ".json") ==> r + ".json" == f
    ensures !EndsWith(f, ".json") ==> r == f
  {
    if EndsWith(f, ".json") then f[..|f| - 5] else f
  }

  /** The file the save endpoint writes. */
  function SaveFile(name: Option<string>): string
  {
    ProjectFileName(Sanitize(SaveName(name)))
  }

  /** The file the load endpoint reads: a missing or empty name is refused. */
  function LoadFile(name: Option<string>): (r: Result<string, string>)
    ensures r.Err? <==> name.None? || name.value == ""
  {
    if name.None? || name.value == "" then Err("name required") else Ok(ProjectFileName(Sanitize(name.value)))
  }

  /** The file the delete endpoint removes: a missing name is refused, an
      empty one is not. */
  function DeleteFile(name: Option<string>): (r: Result<string, string>)
    ensures r.Err? <==> name.None?
  {
    if name.None? then Err("Invalid request") else Ok(ProjectFileName(Sanitize(name.value)))
  }

  /** A saved project shows up in the list under a name that loads and
      deletes the very file that was written, and so does the name it was
      saved under. */
  lemma SavedProjectRoundTrip(name: Option<string>)
    ensures var listed := StripJson(SaveFile(name));
      && listed == Sanitize(SaveName(name))
      && LoadFile(Some(listed)) == Ok(SaveFile(name))
      && DeleteFile(Some(listed)) == Ok(SaveFile(name))
      && (name.Some? && name.value != "" ==> LoadFile(name) == Ok(SaveFile(name)))
  {
    var safe := Sanitize(SaveName(name));
    assert EndsWith(safe + ".json", ".json");
    assert StripJson(safe + ".json") + ".json" == safe + ".json";
    assert StripJson(safe + ".json") == safe;
    SanitizeIdempotent(SaveName(name));
  }

  // ── The project list ──

  datatype ProjectListing = ProjectListing(name: string, updatedAt: int)

  function UpdatedAt(p: ProjectListing): int { p.updatedAt }

  /** The `.json` files of the projects directory, with their modification
      times, in directory order. */
  function JsonListings(files: seq<(string, int)>): (r: seq<ProjectListing>)
    ensures |r| <= |files|
    ensures forall i :: 0 <= i < |files| && EndsWith(files[i].0, ".json") ==>
              ProjectListing(StripJson(files[i].0), files[i].1) in r
  {
    if files == [] then []
    else
      assert forall i :: 1 <= i < |files| ==> files[i] == files[1..][i - 1];
      (if EndsWith(files[0].0, ".json") then [ProjectListing(StripJson(files[0].0), files[0].1)] else [])
        + JsonListings(files[1..])
  }

  /** `/api/projects/list`: newest first. */
  function ProjectList(files: seq<(string, int)>): seq<ProjectListing>
  {
    Sorting.SortDesc(JsonListings(files), UpdatedAt)
  }

  /** The list holds every `.json` file once, newest first, and files with
      the same time keep their directory order. */
  lemma ProjectListOrder(files: seq<(string, int)>)
    ensures Sorting.SortedDesc(ProjectList(files), UpdatedAt)
    ensures multiset(ProjectList(files)) == multiset(JsonListings(files))
    ensures forall t :: Sorting.WithKey(ProjectList(files), UpdatedAt, t) == Sorting.WithKey(JsonListings(files), UpdatedAt, t)
  {
    Sorting.SortDescFacts(JsonListings(files), UpdatedAt);
  }

  /** Only `.json` files are listed, each under its name without the
      extension. */
  lemma {:induction false} JsonListingsFromFiles(files: seq<(string, int)>, p: ProjectListing)
    requires p in JsonListings(files)
    ensures exists i :: 0 <= i < |files| && EndsWith(files[i].0, ".json")
                        && p.name + ".json" == files[i].0 && p.updatedAt == files[i].1
  {
    if files != [] {
      var head := if EndsWith(files[0].0, ".json") then [ProjectListing(StripJson(files[0].0), files[0].1)] else [];
      if p in head {
        assert p.name + ".json" == files[0].0;
      } else {
        JsonListingsFromFiles(files[1..], p);
        var i :| 0 <= i < |files[1..]| && EndsWith(files[1..][i].0, ".json")
                 && p.name + ".json" == files[1..][i].0 && p.updatedAt == files[1..][i].1;
        assert files[1..][i] == files[i + 1];
      }
    }
  }

  // ── Asset ids and tags ──

  predicate IsIdChar(c: char) { ('a' <= c <= 'z') || ('0' <= c <= '9') }

  /** The `[a-z0-9]` characters of `s`, in order. */
  function IdCharsOf(s: string): (r: string)
    ensures forall i :: 0 <= i < |r| ==> IsIdChar(r[i])
  {
    if s == [] then [] else (if IsIdChar(s[0]) then [s[0]] else []) + IdCharsOf(s[1..])
  }

  /** Drops the run of characters outside `[a-z0-9]` that starts `s`. */
  function DropNonId(s: string): (r: string)
    ensures |r| <= |s|
    ensures r != [] ==> IsIdChar(r[0])
  {
    if s != [] && !IsIdChar(s[0]) then DropNonId(s[1..]) else s
  }

  /** What `DropNonId` drops is a run outside `[a-z0-9]`; the rest is kept. */
  lemma {:induction false} DropNonIdSuffix(s: string)
    ensures var r := DropNonId(s);
      r == s[|s| - |r|..] && forall i :: 0 <= i < |s| - |r| ==> !IsIdChar(s[i])
  {
    if s != [] && !IsIdChar(s[0]) {
      DropNonIdSuffix(s[1..]);
      var r := DropNonId(s[1..]);
      assert s[1..][|s| - 1 - |r|..] == s[|s| - |r|..];
      assert forall i :: 1 <= i < |s| ==> s[i] == s[1..][i - 1];
    }
  }

  lemma {:induction false} DropNonIdKeepsIdChars(s: string)
    ensures IdCharsOf(DropNonId(s)) == IdCharsOf(s)
  {
    if s != [] && !IsIdChar(s[0]) {
      DropNonIdKeepsIdChars(s[1..]);
    }
  }

  /** `replace(/[^a-z0-9]+/g, "_")`: every maximal run outside `[a-z0-9]`
      becomes one `_`. */
  function CollapseRuns(s: string): (r: string)
    ensures forall i :: 0 <= i < |r| ==> IsIdChar(r[i]) || r[i] == '_'
    ensures r == [] <==> s == []
    ensures s != [] && IsIdChar(s[0]) ==> r[0] == s[0]
    ensures forall i :: 0 <= i < |r| - 1 && r[i] == '_' ==> r[i + 1] != '_'
    decreases |s|
  {
    if s == [] then []
    else if IsIdChar(s[0]) then [s[0]] + CollapseRuns(s[1..])
    else ['_'] + CollapseRuns(DropNonId(s[1..]))
  }

  /** The letters and digits survive the collapse, in order. */
  lemma {:induction false} CollapseRunsKeepsIdChars(s: string)
    ensures IdCharsOf(CollapseRuns(s)) == IdCharsOf(s)
    decreases |s|
  {
    if s != [] {
      var r := CollapseRuns(s);
      if IsIdChar(s[0]) {
        CollapseRunsKeepsIdChars(s[1..]);
        assert r[1..] == CollapseRuns(s[1..]);
      } else {
        var d := DropNonId(s[1..]);
        CollapseRunsKeepsIdChars(d);
        DropNonIdKeepsIdChars(s[1..]);
        assert r[1..] == CollapseRuns(d);
      }
    }
  }

  /** A text of letters and digits only is left as it is. */
  lemma {:induction false} CollapseRunsOfIdText(s: string)
    requires forall i :: 0 <= i < |s| ==> IsIdChar(s[i])
    ensures CollapseRuns(s) == s
    decreases |s|
  {
    if s != [] {
      assert forall i :: 0 <= i < |s| - 1 ==> s[1..][i] == s[i + 1];
      CollapseRunsOfIdText(s[1..]);
    }
  }

  /** Dropping the leading run of `t + [c]`. */
  lemma {:induction false} DropNonIdSnoc(t: string, c: char)
    ensures DropNonId(t + [c]) == if DropNonId(t) != [] then DropNonId(t) + [c] else if IsIdChar(c) then [c] else []
  {
    if t != [] {
      assert (t + [c])[1..] == t[1..] + [c];
      DropNonIdSnoc(t[1..], c);
    }
  }

  /** One step of `CollapseRuns` read left to right: given the output `prev`
      for the text `s` read so far, the next character `c` is copied when it
      is a letter or digit, and otherwise adds one `_` only when it starts a
      run. */
  function CollapseStep(prev: string, s: string, c: char): string
  {
    if IsIdChar(c) then prev + [c]
    else if s != [] && !IsIdChar(s[|s| - 1]) then prev
    else prev + ['_']
  }

  /** `CollapseRuns` agrees with the left-to-right reading: together with
      `CollapseRuns([]) == []` this determines it on every text. */
  lemma {:induction false} CollapseRunsSnoc(s: string, c: char)
    ensures CollapseRuns(s + [c]) == CollapseStep(CollapseRuns(s), s, c)
    decreases |s|, 1
  {
    if s == [] {
      CollapseRunsSingle(c);
      assert s + [c] == [c];
    } else if IsIdChar(s[0]) {
      CollapseRunsSnocId(s, c);
    } else {
      CollapseRunsSnocRun(s, c);
    }
  }

  lemma {:induction false} CollapseRunsSnocId(s: string, c: char)
    requires s != [] && IsIdChar(s[0])
    ensures CollapseRuns(s + [c]) == CollapseStep(CollapseRuns(s), s, c)
    decreases |s|, 0
  {
    var t := s[1..];
    CollapseRunsUnfold(s, c);
    if t == [] {
      CollapseRunsSingle(c);
      assert t + [c] == [c];
    } else {
      calc {
        CollapseRuns(s + [c]);
        [s[0]] + CollapseRuns(t + [c]);
        { CollapseRunsSnoc(t, c); }
        [s[0]] + CollapseStep(CollapseRuns(t), t, c);
        { CollapseStepPrefix(CollapseRuns(t), [s[0]], t, s, c); }
        CollapseStep([s[0]] + CollapseRuns(t), s, c);
        CollapseStep(CollapseRuns(s), s, c);
      }
    }
  }

  lemma {:induction false} CollapseRunsSnocRun(s: string, c: char)
    requires s != [] && !IsIdChar(s[0])
    ensures CollapseRuns(s + [c]) == CollapseStep(CollapseRuns(s), s, c)
    decreases |s|, 0
  {
    var t := s[1..];
    var d := DropNonId(t);
    CollapseRunsUnfold(s, c);
    DropNonIdSnoc(t, c);
    if d != [] {
      DropNonIdSuffix(t);
      assert d[|d| - 1] == s[|s| - 1];
      calc {
        CollapseRuns(s + [c]);
        ['_'] + CollapseRuns(d + [c]);
        { CollapseRunsSnoc(d, c); }
        ['_'] + CollapseStep(CollapseRuns(d), d, c);
        { CollapseStepPrefix(CollapseRuns(d), ['_'], d, s, c); }
        CollapseStep(['_'] + CollapseRuns(d), s, c);
        CollapseStep(CollapseRuns(s), s, c);
      }
    } else {
      CollapseRunsSingle(c);
      DropNonIdAll(s);
      assert CollapseRuns(s) == ['_'];
      if IsIdChar(c) {
        assert CollapseRuns(s + [c]) == ['_'] + CollapseRuns([c]);
      } else {
        assert CollapseRuns(s + [c]) == ['_'] + CollapseRuns([]);
      }
    }
  }

  lemma CollapseRunsSingle(c: char)
    ensures CollapseRuns([]) == []
    ensures CollapseRuns([c]) == if IsIdChar(c) then [c] else ['_']
  {
    assert [c][1..] == [];
  }

  /** One unfolding of `CollapseRuns` on `s` and on `s + [c]`. */
  lemma CollapseRunsUnfold(s: string, c: char)
    requires s != []
    ensures IsIdChar(s[0]) ==> CollapseRuns(s) == [s[0]] + CollapseRuns(s[1..])
    ensures IsIdChar(s[0]) ==> CollapseRuns(s + [c]) == [s[0]] + CollapseRuns(s[1..] + [c])
    ensures !IsIdChar(s[0]) ==> CollapseRuns(s) == ['_'] + CollapseRuns(DropNonId(s[1..]))
    ensures !IsIdChar(s[0]) ==> CollapseRuns(s + [c]) == ['_'] + CollapseRuns(DropNonId(s[1..] + [c]))
  {
    assert (s + [c])[1..] == s[1..] + [c];
  }

  /** When the run dropped from the front is everything, the text ends
      outside `[a-z0-9]`. */
  lemma DropNonIdAll(s: string)
    requires s != [] && !IsIdChar(s[0]) && DropNonId(s[1..]) == []
    ensures !IsIdChar(s[|s| - 1])
  {
    var t := s[1..];
    DropNonIdSuffix(t);
    if t != [] { assert s[|s| - 1] == t[|t| - 1]; }
  }

  /** The step only looks at the last character read, so a common prefix of
      the output can be pulled out. */
  lemma CollapseStepPrefix(p: string, q: string, d: string, s: string, c: char)
    requires d != [] && s != [] && d[|d| - 1] == s[|s| - 1]
    ensures q + CollapseStep(p, d, c) == CollapseStep(q + p, s, c)
  {
  }

  /** `replace(/^_|_$/g, "")` */
  function TrimUnderscores(s: string): (r: string)
    ensures |r| <= |s| <= |r| + 2
    ensures |r| + (if s != [] && s[0] == '_' then 1 else 0) <= |s|
    ensures forall i :: 0 <= i < |r| ==> r[i] == s[i + (if s != [] && s[0] == '_' then 1 else 0)]
    ensures r != [] && r[0] == '_' ==> |s| >= 2 && s[0] == '_' && s[1] == '_'
    ensures r != [] && r[|r| - 1] == '_' ==> |s| >= 2 && s[|s| - 1] == '_' && s[|s| - 2] == '_'
  {
    var a := if s != [] && s[0] == '_' then s[1..] else s;
    if a != [] && a[|a| - 1] == '_' then a[..|a| - 1] else a
  }

  /** The asset id the scan derives from a file name. */
  function DeriveId(name: string): string
  {
    TrimUnderscores(CollapseRuns(LowerCase(name)))
  }

  predicate IdChars(id: string)
  {
    forall i :: 0 <= i < |id| ==> IsIdChar(id[i]) || id[i] == '_'
  }

  predicate NoDoubleUnderscore(id: string)
  {
    forall i :: 0 <= i < |id| - 1 ==> !(id[i] == '_' && id[i + 1] == '_')
  }

  predicate IsIdShape(id: string)
  {
    IdChars(id) && NoDoubleUnderscore(id) && (id != [] ==> id[0] != '_' && id[|id| - 1] != '_')
  }

  /** Trimming reads the text one position further on when it drops a leading `_`. */
  lemma TrimIndex(c: string, i: int)
    requires 0 <= i < |TrimUnderscores(c)|
    ensures TrimUnderscores(c)[i] == c[i + (if c != [] && c[0] == '_' then 1 else 0)]
  {
  }

  lemma TrimKeepsIdChars(c: string)
    requires IdChars(c)
    ensures IdChars(TrimUnderscores(c))
  {
    var r := TrimUnderscores(c);
    forall i | 0 <= i < |r| ensures IsIdChar(r[i]) || r[i] == '_' {
      TrimIndex(c, i);
    }
  }

  lemma TrimKeepsNoDouble(c: string)
    requires NoDoubleUnderscore(c)
    ensures NoDoubleUnderscore(TrimUnderscores(c))
  {
    var r := TrimUnderscores(c);
    forall i | 0 <= i < |r| - 1 ensures !(r[i] == '_' && r[i + 1] == '_') {
      TrimIndex(c, i);
      TrimIndex(c, i + 1);
    }
  }

  /** Without `__`, trimming one `_` at each end leaves none there. */
  lemma TrimEnds(c: string)
    requires NoDoubleUnderscore(c)
    ensures var r := TrimUnderscores(c); r != [] ==> r[0] != '_' && r[|r| - 1] != '_'
  {
  }

  /** A derived id uses `[a-z0-9_]` only, has no `__`, and neither starts
      nor ends with `_`. */
  lemma DeriveIdShape(name: string)
    ensures IsIdShape(DeriveId(name))
  {
    var c := CollapseRuns(LowerCase(name));
    TrimKeepsIdChars(c);
    TrimKeepsNoDouble(c);
    TrimEnds(c);
  }

  /** `\s`, `_` or `-` */
  predicate IsTagSeparator(c: char) { IsJsSpace(c) || c == '_' || c == '-' }

  /** The length of the run of non-separators that starts `s`. */
  function WordLength(s: string): (n: nat)
    ensures n <= |s|
    ensures forall i :: 0 <= i < n ==> !IsTagSeparator(s[i])
    ensures n < |s| ==> IsTagSeparator(s[n])
  {
    if s != [] && !IsTagSeparator(s[0]) then 1 + WordLength(s[1..]) else 0
  }

  function DropSeparators(s: string): (r: string)
    ensures |r| <= |s|
    ensures r != [] ==> !IsTagSeparator(r[0])
  {
    if s != [] && IsTagSeparator(s[0]) then DropSeparators(s[1..]) else s
  }

  /** `name.split(/[\s_-]+/)`: the pieces between maximal separator runs,
      with an empty piece before a leading run and after a trailing one. */
  function SplitWords(s: string): (r: seq<string>)
    ensures r != []
    ensures forall k, i :: 0 <= k < |r| && 0 <= i < |r[k]| ==> !IsTagSeparator(r[k][i])
    decreases |s|
  {
    var n := WordLength(s);
    if n == |s| then [s] else [s[..n]] + SplitWords(DropSeparators(s[n + 1..]))
  }

  /** The characters of `s` that are not separators, in order. */
  function WordCharsOf(s: string): string
  {
    if s == [] then [] else (if IsTagSeparator(s[0]) then [] else [s[0]]) + WordCharsOf(s[1..])
  }

  function Concat(ws: seq<string>): string
  {
    if ws == [] then [] else ws[0] + Concat(ws[1..])
  }

  lemma {:induction false} WordCharsOfAppend(a: string, b: string)
    ensures WordCharsOf(a + b) == WordCharsOf(a) + WordCharsOf(b)
  {
    if a == [] {
      assert a + b == b;
    } else {
      var h := if IsTagSeparator(a[0]) then [] else [a[0]];
      assert (a + b)[0] == a[0] && (a + b)[1..] == a[1..] + b;
      calc {
        WordCharsOf(a + b);
        h + WordCharsOf(a[1..] + b);
        { WordCharsOfAppend(a[1..], b); }
        h + (WordCharsOf(a[1..]) + WordCharsOf(b));
        (h + WordCharsOf(a[1..])) + WordCharsOf(b);
        WordCharsOf(a) + WordCharsOf(b);
      }
    }
  }

  /** Cutting at the first separator: the word before it, then the rest. */
  lemma WordCharsOfSplitAt(s: string, n: nat)
    requires n < |s| && IsTagSeparator(s[n])
    requires forall i :: 0 <= i < n ==> !IsTagSeparator(s[i])
    ensures WordCharsOf(s) == s[..n] + WordCharsOf(s[n + 1..])
  {
    var w, rest := s[..n], s[n + 1..];
    CutAt(s, n);
    calc {
      WordCharsOf(s);
      WordCharsOf(w + ([s[n]] + rest));
      { WordCharsOfAppend(w, [s[n]] + rest); }
      WordCharsOf(w) + WordCharsOf([s[n]] + rest);
      { WordCharsOfSepCons(s[n], rest); }
      WordCharsOf(w) + WordCharsOf(rest);
      { WordCharsOfWord(w); }
      w + WordCharsOf(rest);
    }
  }

  lemma CutAt(s: string, n: nat)
    requires n < |s|
    ensures s == s[..n] + ([s[n]] + s[n + 1..])
    ensures forall i :: 0 <= i < n ==> s[..n][i] == s[i]
  {
  }

  lemma WordCharsOfSepCons(x: char, rest: string)
    requires IsTagSeparator(x)
    ensures WordCharsOf([x] + rest) == WordCharsOf(rest)
  {
    assert ([x] + rest)[1..] == rest;
  }

  lemma ConcatCons(w: string, ws: seq<string>)
    ensures Concat([w] + ws) == w + Concat(ws)
  {
    assert ([w] + ws)[1..] == ws;
  }

  lemma {:induction false} WordCharsOfWord(w: string)
    requires forall i :: 0 <= i < |w| ==> !IsTagSeparator(w[i])
    ensures WordCharsOf(w) == w
  {
    if w != [] {
      assert forall i :: 0 <= i < |w| - 1 ==> w[1..][i] == w[i + 1];
      WordCharsOfWord(w[1..]);
    }
  }

  /** What `DropSeparators` drops is a run of separators; the rest is kept. */
  lemma {:induction false} DropSeparatorsSuffix(s: string)
    ensures var r := DropSeparators(s);
      r == s[|s| - |r|..] && forall i :: 0 <= i < |s| - |r| ==> IsTagSeparator(s[i])
  {
    if s != [] && IsTagSeparator(s[0]) {
      DropSeparatorsSuffix(s[1..]);
      var r := DropSeparators(s[1..]);
      assert s[1..][|s| - 1 - |r|..] == s[|s| - |r|..];
      assert forall i :: 1 <= i < |s| ==> s[i] == s[1..][i - 1];
    }
  }

  lemma {:induction false} DropSeparatorsKeepsWordChars(s: string)
    ensures WordCharsOf(DropSeparators(s)) == WordCharsOf(s)
  {
    if s != [] && IsTagSeparator(s[0]) {
      DropSeparatorsKeepsWordChars(s[1..]);
    }
  }

  /** The pieces, put back together, are the name without its separators. */
  lemma {:induction false} SplitWordsJoin(s: string)
    ensures Concat(SplitWords(s)) == WordCharsOf(s)
    decreases |s|
  {
    var n := WordLength(s);
    if n == |s| {
      SplitWordsUnfoldOnce(s);
      WordCharsOfWord(s);
      ConcatCons(s, []);
    } else {
      var d := DropSeparators(s[n + 1..]);
      calc {
        Concat(SplitWords(s));
        { SplitWordsCut(s, n); }
        Concat([s[..n]] + SplitWords(d));
        { ConcatCons(s[..n], SplitWords(d)); }
        s[..n] + Concat(SplitWords(d));
        { SplitWordsJoin(d); }
        s[..n] + WordCharsOf(d);
        { DropSeparatorsKeepsWordChars(s[n + 1..]); }
        s[..n] + WordCharsOf(s[n + 1..]);
        { WordCharsOfSplitAt(s, n); }
        WordCharsOf(s);
      }
    }
  }

  /** One step of `split` read left to right: given the pieces `prev` of the
      text `s` read so far, a non-separator `c` extends the last piece, and a
      separator starts a new, empty piece only when it starts a run. */
  function SplitStep(prev: seq<string>, s: string, c: char): seq<string>
    requires prev != []
  {
    if !IsTagSeparator(c) then prev[..|prev| - 1] + [prev[|prev| - 1] + [c]]
    else if s != [] && IsTagSeparator(s[|s| - 1]) then prev
    else prev + [[]]
  }

  lemma {:induction false} WordLengthSnoc(s: string, c: char)
    ensures WordLength(s + [c]) ==
      if WordLength(s) < |s| then WordLength(s) else if IsTagSeparator(c) then |s| else |s| + 1
  {
    if s == [] {
      assert [c][1..] == [];
    } else {
      assert (s + [c])[1..] == s[1..] + [c];
      WordLengthSnoc(s[1..], c);
    }
  }

  lemma {:induction false} DropSeparatorsSnoc(t: string, c: char)
    ensures DropSeparators(t + [c]) ==
      if DropSeparators(t) != [] then DropSeparators(t) + [c] else if IsTagSeparator(c) then [] else [c]
  {
    if t != [] {
      assert (t + [c])[1..] == t[1..] + [c];
      DropSeparatorsSnoc(t[1..], c);
    }
  }

  /** `SplitWords` agrees with the left-to-right reading: together with
      `SplitWords([]) == [[]]` this determines it on every text. */
  lemma {:induction false} SplitWordsSnoc(s: string, c: char)
    ensures SplitWords([]) == [[]]
    ensures SplitWords(s + [c]) == SplitStep(SplitWords(s), s, c)
    decreases |s|, 1
  {
    WordLengthSnoc(s, c);
    if WordLength(s) == |s| {
      SplitWordsSnocWord(s, c);
    } else {
      SplitWordsSnocRun(s, c);
    }
  }

  /** The text read so far has no separator: it is one piece. */
  lemma SplitWordsSnocWord(s: string, c: char)
    requires WordLength(s) == |s|
    requires WordLength(s + [c]) == if IsTagSeparator(c) then |s| else |s| + 1
    ensures SplitWords(s + [c]) == SplitStep(SplitWords(s), s, c)
  {
    assert SplitWords(s) == [s];
    if IsTagSeparator(c) {
      assert (s + [c])[..|s|] == s && (s + [c])[|s| + 1..] == [];
      assert SplitWords([]) == [[]];
      assert SplitWords(s + [c]) == [s] + SplitWords([]);
    }
  }

  /** One unfolding of `SplitWords` past the first separator, at `n`. */
  lemma SplitWordsCut(s: string, n: nat)
    requires n == WordLength(s) < |s|
    ensures SplitWords(s) == [s[..n]] + SplitWords(DropSeparators(s[n + 1..]))
  {
    SplitWordsUnfoldOnce(s);
  }

  lemma SplitWordsUnfoldOnce(s: string)
    ensures SplitWords(s) == if WordLength(s) == |s| then [s]
                             else [s[..WordLength(s)]] + SplitWords(DropSeparators(s[WordLength(s) + 1..]))
  {
  }

  /** The same unfolding on `s + [c]`, when `c` does not change the first word. */
  lemma SplitWordsCutSnoc(s: string, c: char, n: nat)
    requires n == WordLength(s) < |s| && WordLength(s + [c]) == n
    ensures SplitWords(s + [c]) == [s[..n]] + SplitWords(DropSeparators(s[n + 1..] + [c]))
  {
    SplitWordsCut(s + [c], n);
    SnocSlices(s, c, n);
  }

  lemma SnocSlices(s: string, c: char, n: nat)
    requires n < |s|
    ensures (s + [c])[..n] == s[..n] && (s + [c])[n + 1..] == s[n + 1..] + [c]
  {
  }

  /** The text read so far has a separator: the first piece stays, and the
      rest follows the pieces after the first separator run. */
  lemma {:induction false} SplitWordsSnocRun(s: string, c: char)
    requires WordLength(s) < |s|
    requires WordLength(s + [c]) == WordLength(s)
    ensures SplitWords(s + [c]) == SplitStep(SplitWords(s), s, c)
    decreases |s|, 0
  {
    var n := WordLength(s);
    var t := s[n + 1..];
    var d := DropSeparators(t);
    SplitWordsCut(s, n);
    SplitWordsCutSnoc(s, c, n);
    DropSeparatorsSnoc(t, c);
    DropSeparatorsSuffix(t);
    if d != [] {
      assert d[|d| - 1] == s[|s| - 1];
      calc {
        SplitWords(s + [c]);
        [s[..n]] + SplitWords(d + [c]);
        { SplitWordsSnoc(d, c); }
        [s[..n]] + SplitStep(SplitWords(d), d, c);
        { SplitStepPrefix(SplitWords(d), s[..n], d, s, c); }
        SplitStep([s[..n]] + SplitWords(d), s, c);
        SplitStep(SplitWords(s), s, c);
      }
    } else {
      assert IsTagSeparator(s[|s| - 1]) by {
        if t != [] { assert s[|s| - 1] == t[|t| - 1]; }
      }
      calc {
        SplitWords(s + [c]);
        [s[..n]] + SplitWords(if IsTagSeparator(c) then [] else [c]);
        { SplitWordsRunEnd(s[..n], s, c); }
        SplitStep([s[..n]] + SplitWords([]), s, c);
        SplitStep(SplitWords(s), s, c);
      }
    }
  }

  /** After a trailing separator run, a separator changes nothing and any
      other character starts the next piece. */
  lemma SplitWordsRunEnd(w: string, s: string, c: char)
    requires s != [] && IsTagSeparator(s[|s| - 1])
    ensures SplitStep([w] + SplitWords([]), s, c) == [w] + SplitWords(if IsTagSeparator(c) then [] else [c])
  {
    var e: string := [];
    assert SplitWords(e) == [e];
    if !IsTagSeparator(c) {
      assert WordLength([c]) == 1 by { assert [c][1..] == []; }
      assert SplitWords([c]) == [[c]];
      var prev := [w] + [e];
      assert prev[..1] == [w] && prev[1] + [c] == [c];
      assert SplitStep(prev, s, c) == [w] + [[c]];
    }
  }

  /** The step only looks at the last piece and the last character read, so a
      first piece can be pulled out. */
  lemma SplitStepPrefix(p: seq<string>, w: string, d: string, s: string, c: char)
    requires p != [] && d != [] && s != [] && d[|d| - 1] == s[|s| - 1]
    ensures [w] + SplitStep(p, d, c) == SplitStep([w] + p, s, c)
  {
    if !IsTagSeparator(c) {
      assert ([w] + p)[..|p|] == [w] + p[..|p| - 1];
    }
  }

  /** `.filter((w) => w.length > 1).map((w) => w.toLowerCase())` */
  function TagsOf(words: seq<string>): (r: seq<string>)
    ensures |r| <= |words|
  {
    if words == [] then []
    else (if |words[0]| > 1 then [LowerCase(words[0])] else []) + TagsOf(words[1..])
  }

  function DeriveTags(name: string): seq<string>
  {
    TagsOf(SplitWords(name))
  }

  predicate IsTagShape(tag: string)
  {
    && |tag| >= 2
    && (forall i :: 0 <= i < |tag| ==> !IsTagSeparator(tag[i]) && !IsUpperAscii(tag[i]))
  }

  /** Every tag has two characters or more, no separator and no ASCII
      capital. */
  lemma {:induction false} TagsShape(words: seq<string>)
    requires forall k, i :: 0 <= k < |words| && 0 <= i < |words[k]| ==> !IsTagSeparator(words[k][i])
    ensures forall k :: 0 <= k < |TagsOf(words)| ==> IsTagShape(TagsOf(words)[k])
  {
    if words != [] {
      TagsShape(words[1..]);
      var head := if |words[0]| > 1 then [LowerCase(words[0])] else [];
      if |words[0]| > 1 {
        var t := LowerCase(words[0]);
        forall i | 0 <= i < |t|
          ensures !IsTagSeparator(t[i])
        {
          assert !IsTagSeparator(words[0][i]);
        }
      }
      forall k | 0 <= k < |TagsOf(words)|
        ensures IsTagShape(TagsOf(words)[k])
      {
        if k >= |head| {
          assert TagsOf(words)[k] == TagsOf(words[1..])[k - |head|];
        }
      }
    }
  }

  lemma DeriveTagsShape(name: string)
    ensures forall k :: 0 <= k < |DeriveTags(name)| ==> IsTagShape(DeriveTags(name)[k])
  {
    TagsShape(SplitWords(name));
  }

  // ── The scan ──

  /** `VALID_CATEGORIES`, in the order the scan visits them. */
  const ScanOrder: seq<AssetCatalog.AssetCategory> :=
    [AssetCatalog.Background, AssetCatalog.Character, AssetCatalog.Effect, AssetCatalog.Element, AssetCatalog.Emoji]

  function CategoryDir(c: AssetCatalog.AssetCategory): string
  {
    match c
    case Background => "background"
    case Character => "character"
    case Effect => "effect"
    case Element => "element"
    case Emoji => "emoji"
  }

  /** The animations directory: the file names of each category directory
      that exists. */
  type AnimationsDir = map<string, seq<string>>

  /** The entry the scan pushes for `file` in the directory of `category`. */
  function ScannedEntry(category: AssetCatalog.AssetCategory, file: string): AssetCatalog.AssetEntry
  {
    var name := StripJson(file);
    AssetCatalog.AssetEntry(DeriveId(name), CategoryDir(category) + "/" + file, name, DeriveTags(name), category)
  }

  /** The entry's file is `category/filename`, and its name is the file
      name without `.json`. */
  lemma ScannedEntryFields(category: AssetCatalog.AssetCategory, file: string)
    requires EndsWith(file, ".json")
    ensures var a := ScannedEntry(category, file);
      && a.file == CategoryDir(category) + "/" + file && a.category == category
      && a.name + ".json" == file
      && a.id == DeriveId(a.name) && a.tags == DeriveTags(a.name)
  {
  }

  /** The shape of every entry the scan produces. */
  predicate IsScannedShape(a: AssetCatalog.AssetEntry)
  {
    && a.file == CategoryDir(a.category) + "/" + a.name + ".json"
    && IsIdShape(a.id)
    && (forall t :: 0 <= t < |a.tags| ==> IsTagShape(a.tags[t]))
  }

  /** An entry built from a `.json` file: its file is `category/filename`,
      its name the file name without `.json`, its id and tags well formed. */
  lemma ScannedEntryWellFormed(category: AssetCatalog.AssetCategory, file: string)
    requires EndsWith(file, ".json")
    ensures IsScannedShape(ScannedEntry(category, file))
  {
    var a := ScannedEntry(category, file);
    assert a.file == CategoryDir(a.category) + "/" + a.name + ".json" by {
      ScannedEntryFields(category, file);
      assert a.file == CategoryDir(category) + "/" + (a.name + ".json");
    }
    assert IsIdShape(a.id) by {
      DeriveIdShape(a.name);
    }
    assert forall t :: 0 <= t < |a.tags| ==> IsTagShape(a.tags[t]) by {
      DeriveTagsShape(a.name);
    }
  }

  /** The `.json` files of a directory listing, in order: exactly the names
      of the listing that end in `.json`. */
  function JsonFiles(files: seq<string>): (r: seq<string>)
    ensures forall i :: 0 <= i < |r| ==> EndsWith(r[i], ".json") && r[i] in files
    ensures forall f :: f in files && EndsWith(f, ".json") ==> f in r
  {
    if files == [] then []
    else
      assert files == [files[0]] + files[1..];
      (if EndsWith(files[0], ".json") then [files[0]] else []) + JsonFiles(files[1..])
  }

  /** `xs.map(f)`, built from the front as a loop pushing `f(x)` would. */
  function MapAll<A, B>(xs: seq<A>, f: A -> B): (r: seq<B>)
    ensures |r| == |xs|
    decreases |xs|
  {
    if xs == [] then [] else MapAll(xs[..|xs| - 1], f) + [f(xs[|xs| - 1])]
  }

  lemma {:induction false} MapAllIndex<A, B>(xs: seq<A>, f: A -> B, i: nat)
    requires i < |xs|
    ensures MapAll(xs, f)[i] == f(xs[i])
    decreases |xs|
  {
    var n := |xs| - 1;
    if i < n {
      MapAllIndex(xs[..n], f, i);
    }
  }

  lemma MapAllSnoc<A, B>(xs: seq<A>, f: A -> B, j: nat)
    requires j < |xs|
    ensures MapAll(xs[..j + 1], f) == MapAll(xs[..j], f) + [f(xs[j])]
  {
    assert xs[..j + 1][..j] == xs[..j];
  }

  /** The entries of a category's `.json` files, in order. */
  function EntriesOf(category: AssetCatalog.AssetCategory, files: seq<string>): seq<AssetCatalog.AssetEntry>
  {
    MapAll(files, (f: string) => ScannedEntry(category, f))
  }

  function CategoryEntries(dir: AnimationsDir, category: AssetCatalog.AssetCategory): seq<AssetCatalog.AssetEntry>
  {
    if CategoryDir(category) !in dir then [] else EntriesOf(category, JsonFiles(dir[CategoryDir(category)]))
  }

  /** The entries of the first `k` categories of the scan order. */
  function ScanUpTo(dir: AnimationsDir, k: nat): seq<AssetCatalog.AssetEntry>
    requires k <= |ScanOrder|
  {
    if k == 0 then [] else ScanUpTo(dir, k - 1) + CategoryEntries(dir, ScanOrder[k - 1])
  }

  /** The inner `for … of` over one category's `.json` files. */
  method ScanDirectory(category: AssetCatalog.AssetCategory, files: seq<string>)
    returns (entries: seq<AssetCatalog.AssetEntry>)
    ensures entries == EntriesOf(category, files)
  {
    var build := (f: string) => ScannedEntry(category, f);
    entries := [];
    var j := 0;
    while j < |files|
      invariant 0 <= j <= |files|
      invariant entries == MapAll(files[..j], build)
    {
      MapAllSnoc(files, build, j);
      entries := entries + [build(files[j])];
      j := j + 1;
    }
    assert files[..j] == files;
  }

  /** `/api/assets/scan`: the categories in order, skipping a directory
      that does not exist. */
  method ScanAssets(dir: AnimationsDir) returns (assets: seq<AssetCatalog.AssetEntry>)
    ensures assets == ScanUpTo(dir, |ScanOrder|)
  {
    assets := [];
    var k := 0;
    while k < |ScanOrder|
      invariant 0 <= k <= |ScanOrder|
      invariant assets == ScanUpTo(dir, k)
    {
      var category := ScanOrder[k];
      var name := CategoryDir(category);
      if name in dir {
        var entries := ScanDirectory(category, JsonFiles(dir[name]));
        assets := assets + entries;
      }
      k := k + 1;
    }
  }

  /** Every scanned entry comes from a `.json` file of one of the five
      category directories, and has the scan's shape. */
  lemma ScannedEntryShape(dir: AnimationsDir, k: nat, a: AssetCatalog.AssetEntry)
    requires k <= |ScanOrder|
    requires a in ScanUpTo(dir, k)
    ensures exists c, f :: c in ScanOrder && CategoryDir(c) in dir && f in dir[CategoryDir(c)]
                           && EndsWith(f, ".json") && a == ScannedEntry(c, f)
    ensures IsScannedShape(a)
  {
    ScanUpToSource(dir, k, a);
    var c, f :| c in ScanOrder && CategoryDir(c) in dir && f in dir[CategoryDir(c)]
                && EndsWith(f, ".json") && a == ScannedEntry(c, f);
    ScannedEntryWellFormed(c, f);
  }

  /** Every `.json` file of an existing category directory yields its entry
      in that category's entries. */
  lemma CategoryEntriesComplete(dir: AnimationsDir, c: AssetCatalog.AssetCategory, f: string)
    requires CategoryDir(c) in dir && f in dir[CategoryDir(c)] && EndsWith(f, ".json")
    ensures ScannedEntry(c, f) in CategoryEntries(dir, c)
  {
    var files := JsonFiles(dir[CategoryDir(c)]);
    var i :| 0 <= i < |files| && files[i] == f;
    MapAllIndex(files, (f: string) => ScannedEntry(c, f), i);
  }

  /** Every `.json` file of an existing category directory among the first
      `k` categories yields its entry. */
  lemma {:induction false} ScanUpToComplete(dir: AnimationsDir, k: nat, j: nat, f: string)
    requires j < k <= |ScanOrder|
    requires CategoryDir(ScanOrder[j]) in dir && f in dir[CategoryDir(ScanOrder[j])] && EndsWith(f, ".json")
    ensures ScannedEntry(ScanOrder[j], f) in ScanUpTo(dir, k)
  {
    assert ScanUpTo(dir, k) == ScanUpTo(dir, k - 1) + CategoryEntries(dir, ScanOrder[k - 1]);
    if j == k - 1 {
      CategoryEntriesComplete(dir, ScanOrder[j], f);
    } else {
      ScanUpToComplete(dir, k - 1, j, f);
    }
  }

  /** The scan misses nothing: every `.json` file of every existing category
      directory yields its entry. */
  lemma ScanFindsEveryJsonFile(dir: AnimationsDir, c: AssetCatalog.AssetCategory, f: string)
    requires c in ScanOrder && CategoryDir(c) in dir && f in dir[CategoryDir(c)] && EndsWith(f, ".json")
    ensures ScannedEntry(c, f) in ScanUpTo(dir, |ScanOrder|)
  {
    var j :| 0 <= j < |ScanOrder| && ScanOrder[j] == c;
    ScanUpToComplete(dir, |ScanOrder|, j, f);
  }

  lemma {:induction false} ScanUpToSource(dir: AnimationsDir, k: nat, a: AssetCatalog.AssetEntry)
    requires k <= |ScanOrder|
    requires a in ScanUpTo(dir, k)
    ensures exists c, f :: c in ScanOrder && CategoryDir(c) in dir && f in dir[CategoryDir(c)]
                           && EndsWith(f, ".json") && a == ScannedEntry(c, f)
  {
    if k > 0 {
      if a in ScanUpTo(dir, k - 1) {
        ScanUpToSource(dir, k - 1, a);
      } else {
        var c := ScanOrder[k - 1];
        var es := CategoryEntries(dir, c);
        assert a in es;
        var files := JsonFiles(dir[CategoryDir(c)]);
        var i :| 0 <= i < |files| && es[i] == a;
        MapAllIndex(files, (f: string) => ScannedEntry(c, f), i);
        var f := files[i];
        assert c in ScanOrder && CategoryDir(c) in dir && f in dir[CategoryDir(c)]
               && EndsWith(f, ".json") && a == ScannedEntry(c, f);
      }
    }
  }
}
