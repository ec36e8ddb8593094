/**
 * Shared vocabulary of the cybero core: optional values, the string helpers of
 * Go's `strings`, `path` and `path/filepath` packages that the dispatchers and
 * the module scanners rely on, the `{Status, Response}` envelope and the
 * outcome of an HTTP handler.
 */
module Common {

  datatype Option<+T> = None | Some(value: T)

  // ---------------------------------------------------------------------------
  // strings.Split with a one-character separator
  // ---------------------------------------------------------------------------

  /** True when `c` occurs in `s`. */
  predicate HasChar(s: string, c: char)
  {
    exists i :: 0 <= i < |s| && s[i] == c
  }

  /**
   * strings.Split(s, sep) for a one-character separator: the pieces between
   * separators, in order. Like Go, it never returns an empty slice: an empty
   * input gives one empty piece.
   */
  function Split(s: string, sep: char): (parts: seq<string>)
    ensures |parts| >= 1
    ensures forall i :: 0 <= i < |parts| ==> !HasChar(parts[i], sep)
    decreases |s|
  {
    if s == [] then [""]
    else
      var rest := Split(s[1..], sep);
      if s[0] == sep then [""] + rest
      else
        assert forall j :: 0 <= j < |rest[0]| ==> ([s[0]] + rest[0])[j + 1] == rest[0][j];
        [[s[0]] + rest[0]] + rest[1..]
  }

  /** strings.Join(parts, sep) for a one-character separator. */
  function Join(parts: seq<string>, sep: char): (s: string)
    requires |parts| >= 1
  {
    if |parts| == 1 then parts[0] else parts[0] + [sep] + Join(parts[1..], sep)
  }

  /** Joining the pieces of a split gives back the original string. */
  lemma {:induction false} JoinSplit(s: string, sep: char)
    ensures Join(Split(s, sep), sep) == s
    decreases |s|
  {
    if s != [] {
      var rest := Split(s[1..], sep);
      JoinSplit(s[1..], sep);
      if s[0] == sep {
        assert Split(s, sep) == [""] + rest;
        assert ([""] + rest)[1..] == rest;
      } else {
        var parts := Split(s, sep);
        assert parts == [[s[0]] + rest[0]] + rest[1..];
        if |rest| == 1 {
          assert parts == [[s[0]] + rest[0]];
        } else {
          assert parts[1..] == rest[1..];
          assert Join(rest, sep) == rest[0] + [sep] + Join(rest[1..], sep);
        }
      }
    }
  }

  /** The number of occurrences of `c` in `s`. */
  function Count(s: string, c: char): (n: nat)
  {
    if s == [] then 0 else (if s[0] == c then 1 else 0) + Count(s[1..], c)
  }

  /** Split yields one more piece than there are separators. */
  lemma {:induction false} SplitLength(s: string, sep: char)
    ensures |Split(s, sep)| == Count(s, sep) + 1
    decreases |s|
  {
    if s != [] {
      SplitLength(s[1..], sep);
    }
  }

  /** The first piece of a split: what precedes the first separator. */
  function FirstSegment(s: string, sep: char): (f: string)
  {
    Split(s, sep)[0]
  }

  /**
   * The first piece is the longest separator-free prefix: it is a prefix of
   * `s`, it holds no separator, and it is either all of `s` or followed by a
   * separator.
   */
  lemma {:induction false} FirstSegmentIsPrefix(s: string, sep: char)
    ensures var f := FirstSegment(s, sep);
      && |f| <= |s| && f == s[..|f|] && !HasChar(f, sep)
      && (|f| == |s| || s[|f|] == sep)
    decreases |s|
  {
    if s != [] && s[0] != sep {
      FirstSegmentIsPrefix(s[1..], sep);
      var r := FirstSegment(s[1..], sep);
      assert FirstSegment(s, sep) == [s[0]] + r;
    }
  }

  /** A separator-free word followed by a separator is the first piece. */
  lemma {:induction false} FirstSegmentOf(word: string, rest: string, sep: char)
    requires !HasChar(word, sep)
    ensures FirstSegment(word + [sep] + rest, sep) == word
    ensures FirstSegment(word, sep) == word
    decreases |word|
  {
    if word == [] {
      assert ([] + [sep] + rest)[0] == sep;
    } else {
      assert !HasChar(word[1..], sep) by {
        forall i | 0 <= i < |word[1..]| ensures word[1..][i] != sep {
          assert word[1..][i] == word[i + 1];
        }
      }
      FirstSegmentOf(word[1..], rest, sep);
      assert (word + [sep] + rest)[1..] == word[1..] + [sep] + rest;
      assert word == [word[0]] + word[1..];
    }
  }

  // ---------------------------------------------------------------------------
  // strings.HasPrefix, strings.ReplaceAll(s, old, "")
  // ---------------------------------------------------------------------------

  predicate HasPrefix(s: string, prefix: string)
  {
    |prefix| <= |s| && s[..|prefix|] == prefix
  }

  /** True when `pat` occurs somewhere in `s`. */
  predicate Contains(s: string, pat: string)
    decreases |s|
  {
    |pat| <= |s| && (s[..|pat|] == pat || (s != [] && Contains(s[1..], pat)))
  }

  /**
   * strings.ReplaceAll(s, pat, "") for a non-empty pattern: every
   * non-overlapping occurrence, scanning from the left, is removed.
   */
  function RemoveAll(s: string, pat: string): (r: string)
    requires |pat| > 0
    ensures |r| <= |s|
    decreases |s|
  {
    if |s| < |pat| then s
    else if s[..|pat|] == pat then RemoveAll(s[|pat|..], pat)
    else [s[0]] + RemoveAll(s[1..], pat)
  }

  /** Removing a pattern that does not occur leaves the string unchanged. */
  lemma {:induction false} RemoveAllAbsent(s: string, pat: string)
    requires |pat| > 0 && !Contains(s, pat)
    ensures RemoveAll(s, pat) == s
    decreases |s|
  {
    if |s| >= |pat| {
      RemoveAllAbsent(s[1..], pat);
      assert s == [s[0]] + s[1..];
    }
  }

  /** Removal leaves no occurrence of the pattern behind when it cannot re-form. */
  lemma {:induction false} RemoveAllOfPrefixed(pat: string, rest: string)
    requires |pat| > 0 && !Contains(rest, pat)
    ensures RemoveAll(pat + rest, pat) == rest
  {
    assert (pat + rest)[..|pat|] == pat;
    assert (pat + rest)[|pat|..] == rest;
    RemoveAllAbsent(rest, pat);
  }

  // ---------------------------------------------------------------------------
  // filepath.Ext and the module-name derivation used by the scanners
  // ---------------------------------------------------------------------------

  /** True when `suffix` is a suffix of `s`. */
  predicate IsSuffix(suffix: string, s: string)
  {
    |suffix| <= |s| && s[|s| - |suffix|..] == suffix
  }

  /**
   * filepath.Ext: the suffix of the last path element that starts at its last
   * dot, or "" when that element has no dot. The dot is part of the result.
   */
  function Ext(path: string): (e: string)
    ensures e == "" || (e[0] == '.' && IsSuffix(e, path) && !HasChar(e, '/'))
    decreases |path|
  {
    if path == [] then ""
    else
      var last := path[|path| - 1];
      if last == '/' then ""
      else if last == '.' then [last]
      else
        var e := Ext(path[..|path| - 1]);
        if e == "" then ""
        else
          assert forall i :: 0 <= i < |e| ==> (e + [last])[i] == e[i];
          e + [last]
  }

  /** An extension is never the bare word "so": Ext keeps the leading dot. */
  lemma ExtIsNeverBareSo(name: string)
    ensures Ext(name) != "so"
  {
  }

  /**
   * strings.ReplaceAll(name, filepath.Ext(name), ""): the registry key of a
   * plugin file. Every occurrence of the extension is removed, not just the
   * final one; a name without extension is kept as it is (ReplaceAll with an
   * empty pattern and an empty replacement changes nothing).
   */
  function Stem(name: string): (key: string)
  {
    var e := Ext(name);
    if e == "" then name else RemoveAll(name, e)
  }

  /** A last element ending in "." + word, with no dot or slash in word, has extension "." + word. */
  lemma {:induction false} ExtOfDottedWord(base: string, word: string)
    requires !HasChar(word, '.') && !HasChar(word, '/')
    ensures Ext(base + "." + word) == "." + word
    decreases |word|
  {
    if word != [] {
      var w', c := word[..|word| - 1], word[|word| - 1];
      assert !HasChar(w', '.') && !HasChar(w', '/') by {
        forall i | 0 <= i < |w'| ensures w'[i] != '.' && w'[i] != '/' {
          assert w'[i] == word[i];
        }
      }
      assert c != '.' && c != '/';
      ExtOfDottedWord(base, w');
      var p := base + "." + word;
      assert p[..|p| - 1] == base + "." + w';
      assert "." + word == ("." + w') + [c];
    }
  }

  /** A pattern that starts with a dot never matches inside a dot-free prefix. */
  lemma {:induction false} RemoveAllAfterDotFree(w: string, x: string, pat: string)
    requires |pat| > 0 && pat[0] == '.' && !HasChar(w, '.')
    ensures RemoveAll(w + x, pat) == w + RemoveAll(x, pat)
    decreases |w|
  {
    if w != [] {
      var s := w + x;
      assert s[0] == w[0] != '.';
      if |s| >= |pat| {
        assert s[..|pat|][0] == s[0];
        assert s[1..] == w[1..] + x;
        assert !HasChar(w[1..], '.') by {
          forall i | 0 <= i < |w[1..]| ensures w[1..][i] != '.' {
            assert w[1..][i] == w[i + 1];
          }
        }
        assert s[..|pat|] != pat;
        assert RemoveAll(s, pat) == [s[0]] + RemoveAll(s[1..], pat);
        RemoveAllAfterDotFree(w[1..], x, pat);
        assert w == [w[0]] + w[1..];
      } else {
        assert RemoveAll(x, pat) == x;
      }
    } else {
      assert w + x == x;
    }
  }

  /**
   * The "every occurrence" behaviour: a dot-free name carrying its extension
   * twice, such as "a.so.so", loses both and has key "a".
   */
  lemma {:induction false} StemRemovesEveryOccurrence(w: string, word: string)
    requires !HasChar(w, '.') && !HasChar(word, '.') && !HasChar(word, '/')
    ensures Stem(w + "." + word + "." + word) == w
  {
    var pat := "." + word;
    ExtOfDottedWord(w + "." + word, word);
    assert w + "." + word + "." + word == w + (pat + pat);
    RemoveAllAfterDotFree(w, pat + pat, pat);
    assert (pat + pat)[..|pat|] == pat && (pat + pat)[|pat|..] == pat;
    assert pat[..|pat|] == pat && pat[|pat|..] == [];
  }

  /**
   * path.Join(dir, file) for a plain file name: the two joined by one slash.
   * The rest of path.Clean (repeated slashes, "." and ".." elements) is not
   * modelled.
   */
  function JoinPath(dir: string, file: string): (p: string)
    ensures IsSuffix(file, p)
  {
    if dir == [] then file
    else if dir[|dir| - 1] == '/' then dir + file
    else dir + "/" + file
  }

  // ---------------------------------------------------------------------------
  // Requests and responses
  // ---------------------------------------------------------------------------

  /** The parts of an http.Request the dispatchers look at. */
  datatype Request = Request(verb: string, path: string, query: map<string, string>)

  /** r.URL.Query().Get(key): the value, or "" when the parameter is absent. */
  function QueryGet(r: Request, key: string): (v: string)
    ensures key !in r.query ==> v == ""
    ensures key in r.query ==> v == r.query[key]
  {
    if key in r.query then r.query[key] else ""
  }

  /** One entry of a module listing: name, version and, for API handlers, endpoint. */
  datatype Entry = Entry(name: string, version: string, endpoint: Option<string>)

  /** The builtin pseudo-entry every listing starts with. */
  const BuiltinEntry: Entry := Entry("builtin", "-", None)

  /** The `Response` member of an envelope. */
  datatype Body =
    | Error(message: string)
    | Info(text: string)
    | Help(text: string)
    | Modules(entries: seq<Entry>)

  /** The `{Status, Response}` envelope written as JSON by every endpoint. */
  datatype Response = Response(status: int, body: Body)

  /** The builtin actions served by the API dispatchers. */
  datatype BuiltinAction = ListAction | InfoAction | HelpAction

  /**
   * What an HTTP handler (`func(w, r) error`) did: wrote an envelope and
   * returned nil, returned nil without writing, handed the request to a
   * plugin's own HandleRequest (whose behaviour is not modelled), returned an
   * error without writing, or panicked.
   */
  datatype Outcome =
    | Wrote(response: Response)
    | Silent
    | Delegated(moduleName: string)
    | Failed(error: string)
    | Panicked

  /** fmt's %q verb: the text between double quotes (escaping is not modelled). */
  function Quote(s: string): (q: string)
  {
    "\"" + s + "\""
  }

  const InvalidOperation: string := "Invalid operation"
  const NoModuleCalled: string := "No module called"
  const BuiltinInfo: string := "Builtin module, contains builtin functions to handle modules.\n"
  const ListHelp: string := "Returns a list of available modules"
  const InfoHelp: string := "Returns information about a specific module"
}
