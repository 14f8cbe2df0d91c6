/**
 * The two filename heuristics that link uploaded images to products: the
 * progressive search of the assign-images script (normalize, then full name,
 * first word, any longer word) and the simpler first-word search of the
 * product controller.
 */
module ImageMatch {
  import opened Wrappers
  import opened Text

  /** The characters normalize keeps: a-z, 0-9 and whitespace. */
  predicate Kept(c: char) {
    ('a' <= c <= 'z') || ('0' <= c <= '9') || IsWhite(c)
  }

  /** replace(/[^a-z0-9\s]/g, ''). */
  function KeepAllowed(s: string): string
    decreases |s|
  {
    if s == [] then [] else (if Kept(s[0]) then [s[0]] else []) + KeepAllowed(s[1..])
  }

  lemma {:induction false} KeepAllowedShape(s: string)
    ensures forall i :: 0 <= i < |KeepAllowed(s)| ==> Kept(KeepAllowed(s)[i])
    ensures (forall i :: 0 <= i < |s| ==> Kept(s[i])) ==> KeepAllowed(s) == s
    decreases |s|
  {
    if s != [] {
      KeepAllowedShape(s[1..]);
    }
  }

  /** The filter works character by character: a kept character stays, any
      other is dropped. */
  lemma {:induction false} KeepAllowedOne(c: char)
    ensures KeepAllowed([c]) == if Kept(c) then [c] else []
  {
    assert [c][1..] == [];
  }

  /** The filter works piece by piece over a concatenation, so the kept
      characters stay in their order. */
  lemma {:induction false} KeepAllowedAppend(a: string, b: string)
    ensures KeepAllowed(a + b) == KeepAllowed(a) + KeepAllowed(b)
    decreases |a|
  {
    if a == [] {
      assert a + b == b;
    } else {
      var head := if Kept(a[0]) then [a[0]] else [];
      assert (a + b)[0] == a[0];
      assert (a + b)[1..] == a[1..] + b;
      assert KeepAllowed(a + b) == head + KeepAllowed(a[1..] + b);
      KeepAllowedAppend(a[1..], b);
      assert KeepAllowed(a) == head + KeepAllowed(a[1..]);
    }
  }

  /** trim() keeps only characters of its input, and leaves no whitespace at either end. */
  lemma {:induction false} TrimShape(s: string)
    ensures var r := Trim(s);
      && |r| <= |s|
      && ((forall i :: 0 <= i < |s| ==> Kept(s[i])) ==> forall i :: 0 <= i < |r| ==> Kept(r[i]))
      && (r != [] ==> !IsWhite(r[0]) && !IsWhite(r[|r| - 1]))
  {
    var a := TrimStart(s);
    TrimStartShape(s);
    TrimEndShape(a);
    var b := TrimEnd(a);
    if forall i :: 0 <= i < |s| ==> Kept(s[i]) {
      forall i | 0 <= i < |b| ensures Kept(b[i]) {
        assert b[i] == a[i] == s[|s| - |a| + i];
      }
    }
    if b != [] {
      assert b[0] == a[0];
    }
  }

  /** normalize(s): lower-case, drop everything but a-z, 0-9 and whitespace, trim. */
  function Normalize(s: string): (r: string)
    ensures r != [] ==> !IsWhite(r[0]) && !IsWhite(r[|r| - 1])
  {
    Trim(KeepAllowed(Lower(s)))
  }

  /** normalize(s) is the filtered, lower-cased s with the whitespace at
      both of its ends cut off. */
  lemma {:induction false} NormalizeSlice(s: string) returns (lo: nat, hi: nat)
    ensures var k := KeepAllowed(Lower(s));
      && lo <= hi <= |k| && Normalize(s) == k[lo..hi]
      && (forall i :: 0 <= i < lo ==> IsWhite(k[i]))
      && (forall i :: hi <= i < |k| ==> IsWhite(k[i]))
  {
    lo, hi := TrimSlice(KeepAllowed(Lower(s)));
  }

  /** normalize's output holds only a-z, 0-9 and whitespace, and neither
      starts nor ends with whitespace. */
  lemma {:induction false} NormalizeShape(s: string)
    ensures var r := Normalize(s);
      && (forall i :: 0 <= i < |r| ==> Kept(r[i]))
      && (r != [] ==> !IsWhite(r[0]) && !IsWhite(r[|r| - 1]))
  {
    KeepAllowedShape(Lower(s));
    TrimShape(KeepAllowed(Lower(s)));
  }

  lemma {:induction false} LowerOfKept(s: string)
    requires forall i :: 0 <= i < |s| ==> Kept(s[i])
    ensures Lower(s) == s
  {
    assert forall i :: 0 <= i < |s| ==> Lower(s)[i] == s[i];
  }

  /** normalize is idempotent. */
  lemma {:induction false} NormalizeIdempotent(s: string)
    ensures Normalize(Normalize(s)) == Normalize(s)
  {
    var n := Normalize(s);
    NormalizeShape(s);
    LowerOfKept(n);
    KeepAllowedShape(n);
    assert KeepAllowed(Lower(n)) == n;
    assert TrimStart(n) == n;
    assert TrimEnd(n) == n;
  }

  /** Which form of a filename a search compares against. */
  datatype FileKey = Normalized | Lowered

  function KeyOf(k: FileKey, f: string): string {
    match k
    case Normalized => Normalize(f)
    case Lowered => Lower(f)
  }

  /** The key of every file, in list order. */
  function KeysOf(k: FileKey, files: seq<string>): (r: seq<string>)
    ensures |r| == |files|
    ensures forall j :: 0 <= j < |files| ==> r[j] == KeyOf(k, files[j])
  {
    seq(|files|, j requires 0 <= j < |files| => KeyOf(k, files[j]))
  }

  /** The index of the first key, in list order, that contains t. */
  function FirstHit(keys: seq<string>, t: string): (r: Option<nat>)
    ensures r.Some? ==> r.value < |keys| && Contains(keys[r.value], t)
    ensures r.Some? ==> forall j :: 0 <= j < r.value ==> !Contains(keys[j], t)
    ensures r.None? ==> forall j :: 0 <= j < |keys| ==> !Contains(keys[j], t)
    decreases |keys|
  {
    if keys == [] then None
    else if Contains(keys[0], t) then Some(0)
    else match FirstHit(keys[1..], t)
      case None => None
      case Some(i) => Some(i + 1)
  }

  /** FirstHit is the earliest index whose key contains t. */
  lemma {:induction false} FirstHitIsFirst(keys: seq<string>, t: string, i: nat)
    requires i < |keys| && Contains(keys[i], t)
    requires forall j :: 0 <= j < i ==> !Contains(keys[j], t)
    ensures FirstHit(keys, t) == Some(i)
  {
  }

  /** files.find(f => key(f).includes(t)). */
  function Find(files: seq<string>, k: FileKey, t: string): (r: Option<string>)
    ensures r.Some? ==> r.value in files && Contains(KeyOf(k, r.value), t)
    ensures r.None? <==> forall j :: 0 <= j < |files| ==> !Contains(KeyOf(k, files[j]), t)
  {
    match FirstHit(KeysOf(k, files), t)
    case None => None
    case Some(i) => Some(files[i])
  }

  /** Find returns the first file, in list order, whose key contains t. */
  lemma FindIsFirst(files: seq<string>, k: FileKey, t: string, i: nat)
    requires i < |files| && Contains(KeyOf(k, files[i]), t)
    requires forall j :: 0 <= j < i ==> !Contains(KeyOf(k, files[j]), t)
    ensures Find(files, k, t) == Some(files[i])
  {
    FirstHitIsFirst(KeysOf(k, files), t, i);
  }

  /** Step 3: for each word in order, for each key in order, the first index
      whose key contains a word longer than two characters. */
  function WordHit(words: seq<string>, keys: seq<string>): (r: Option<nat>)
    ensures r.Some? ==> r.value < |keys|
    ensures r.Some? ==> exists a :: 0 <= a < |words| && |words[a]| > 2 && Contains(keys[r.value], words[a])
    ensures r.None? <==> forall w, j :: w in words && 0 <= j < |keys| && |w| > 2 ==> !Contains(keys[j], w)
    decreases |words|
  {
    if words == [] then None
    else if |words[0]| > 2 && FirstHit(keys, words[0]).Some? then FirstHit(keys, words[0])
    else WordHit(words[1..], keys)
  }

  /** Step 3 is token-major: the words are tried in order, and the first word
      longer than two characters that some key contains decides, at the first
      key containing it. */
  lemma {:induction false} WordHitIsFirst(words: seq<string>, keys: seq<string>, a: nat)
    requires a < |words| && |words[a]| > 2 && FirstHit(keys, words[a]).Some?
    requires forall b :: 0 <= b < a && |words[b]| > 2 ==> FirstHit(keys, words[b]).None?
    ensures WordHit(words, keys) == FirstHit(keys, words[a])
    decreases a
  {
    if a > 0 {
      assert forall b :: 0 <= b < a - 1 ==> words[1..][b] == words[b + 1];
      WordHitIsFirst(words[1..], keys, a - 1);
    }
  }

  /** The three steps of findBestMatch over the normalized keys, for a
      non-empty normalized name n. */
  function BestHit(n: string, keys: seq<string>): (r: Option<nat>)
    ensures r.Some? ==> r.value < |keys|
    ensures r.Some? ==>
      (Contains(keys[r.value], n) || Contains(keys[r.value], FirstWord(n)) ||
       exists w :: w in Words(n) && |w| > 2 && Contains(keys[r.value], w))
  {
    var full := FirstHit(keys, n);
    if full.Some? then full
    else
      var first := FirstHit(keys, FirstWord(n));
      if first.Some? then first
      else WordHit(Words(n), keys)
  }

  /** findBestMatch: null for an empty normalized name; else the first file
      containing the whole normalized name, else the first containing its first
      word, else step 3. Only step 3 filters on length. */
  function FindBestMatch(name: string, files: seq<string>): (r: Option<string>)
    ensures r.Some? ==> r.value in files
    ensures r.Some? ==> var n, key := Normalize(name), Normalize(r.value);
      Contains(key, n) || Contains(key, FirstWord(n)) || exists w :: w in Words(n) && |w| > 2 && Contains(key, w)
    ensures Normalize(name) == "" ==> r == None
  {
    var n := Normalize(name);
    if n == "" then None
    else match BestHit(n, KeysOf(Normalized, files))
      case None => None
      case Some(i) => Some(files[i])
  }

  /** A file containing the whole normalized name, with none before it doing so,
      is the match. */
  lemma {:induction false} FullNameHitWins(name: string, files: seq<string>, i: nat)
    requires Normalize(name) != ""
    requires i < |files| && Contains(Normalize(files[i]), Normalize(name))
    requires forall j :: 0 <= j < i ==> !Contains(Normalize(files[j]), Normalize(name))
    ensures FindBestMatch(name, files) == Some(files[i])
  {
    var keys := KeysOf(Normalized, files);
    assert forall j :: 0 <= j < |files| ==> keys[j] == Normalize(files[j]);
    FirstHitIsFirst(keys, Normalize(name), i);
  }

  /** Failing step 1, a file containing the first word is the match even when
      that word is one or two characters long. */
  lemma {:induction false} FirstWordHitWins(name: string, files: seq<string>, i: nat)
    requires Normalize(name) != ""
    requires forall j :: 0 <= j < |files| ==> !Contains(Normalize(files[j]), Normalize(name))
    requires i < |files| && Contains(Normalize(files[i]), FirstWord(Normalize(name)))
    requires forall j :: 0 <= j < i ==> !Contains(Normalize(files[j]), FirstWord(Normalize(name)))
    ensures FindBestMatch(name, files) == Some(files[i])
  {
    var n := Normalize(name);
    var keys := KeysOf(Normalized, files);
    assert forall j :: 0 <= j < |files| ==> keys[j] == Normalize(files[j]);
    assert FirstHit(keys, n).None?;
    FirstHitIsFirst(keys, FirstWord(n), i);
  }

  /** Failing steps 1 and 2, the match is the first file containing the first
      word longer than two characters that any file contains. */
  lemma {:induction false} WordHitWins(name: string, files: seq<string>, a: nat, i: nat)
    requires Normalize(name) != ""
    requires forall j :: 0 <= j < |files| ==> !Contains(Normalize(files[j]), Normalize(name))
    requires forall j :: 0 <= j < |files| ==> !Contains(Normalize(files[j]), FirstWord(Normalize(name)))
    requires a < |Words(Normalize(name))| && |Words(Normalize(name))[a]| > 2
    requires forall b, j :: 0 <= b < a && |Words(Normalize(name))[b]| > 2 && 0 <= j < |files| ==>
      !Contains(Normalize(files[j]), Words(Normalize(name))[b])
    requires i < |files| && Contains(Normalize(files[i]), Words(Normalize(name))[a])
    requires forall j :: 0 <= j < i ==> !Contains(Normalize(files[j]), Words(Normalize(name))[a])
    ensures FindBestMatch(name, files) == Some(files[i])
  {
    var n := Normalize(name);
    var keys := KeysOf(Normalized, files);
    FirstHitIsFirst(keys, Words(n)[a], i);
    BestHitStep3(n, keys, a, i);
  }

  /** Step 3 over the keys: when the name and its first word are found
      nowhere, the first word longer than two characters that some key
      contains decides, at the first key containing it. */
  lemma BestHitStep3(n: string, keys: seq<string>, a: nat, i: nat)
    requires FirstHit(keys, n).None? && FirstHit(keys, FirstWord(n)).None?
    requires a < |Words(n)| && |Words(n)[a]| > 2 && FirstHit(keys, Words(n)[a]) == Some(i)
    requires forall b :: 0 <= b < a && |Words(n)[b]| > 2 ==> FirstHit(keys, Words(n)[b]).None?
    ensures BestHit(n, keys) == Some(i)
  {
    WordHitIsFirst(Words(n), keys, a);
  }

  /** Step 1 has no length filter: whenever some file contains the whole
      normalized name, however short, a file containing it is returned. */
  lemma {:induction false} FullNameAlwaysFound(name: string, files: seq<string>, i: nat)
    requires Normalize(name) != ""
    requires i < |files| && Contains(Normalize(files[i]), Normalize(name))
    ensures FindBestMatch(name, files).Some?
    ensures Contains(Normalize(FindBestMatch(name, files).value), Normalize(name))
  {
    var keys := KeysOf(Normalized, files);
    assert keys[i] == Normalize(files[i]);
    var h := FirstHit(keys, Normalize(name));
    assert h.Some?;
    assert keys[h.value] == Normalize(files[h.value]);
  }

  /** A one-letter product name still gets an image: "X" matches "x.png". */
  lemma ShortNameExample()
    ensures FindBestMatch("X", ["x.png"]) == Some("x.png")
  {
    NormalizeExamples();
    assert Contains("xpng", "x");
    FullNameHitWins("X", ["x.png"], 0);
  }

  lemma NormalizeExamples()
    ensures Normalize("X") == "x" && Normalize("x.png") == "xpng"
  {
    NormalizeOneLetter();
    NormalizeFileName();
  }

  lemma NormalizeOneLetter()
    ensures Normalize("X") == "x"
  {
    assert Lower("X") == "x";
    assert KeepAllowed("x") == "x";
    assert TrimStart("x") == "x" && TrimEnd("x") == "x";
  }

  lemma NormalizeFileName()
    ensures Normalize("x.png") == "xpng"
  {
    assert Lower("x.png") == "x.png";
    KeepAllowedFileName();
    assert !IsWhite('x') && !IsWhite('g');
    assert "xpng"[0] == 'x' && "xpng"[|"xpng"| - 1] == 'g';
    assert TrimStart("xpng") == "xpng" && TrimEnd("xpng") == "xpng";
  }

  lemma KeepAllowedFileName()
    ensures KeepAllowed("x.png") == "xpng"
  {
    assert KeepAllowed("g") == "g";
    assert KeepAllowed("ng") == "ng";
    assert KeepAllowed("png") == "png";
    assert KeepAllowed(".png") == "png";
    assert "x.png"[0] == 'x' && "x.png"[1..] == ".png";
  }

  /** A string without whitespace keeps none through normalize. */
  lemma {:induction false} NormalizeNoWhite(s: string)
    requires forall i :: 0 <= i < |s| ==> !IsWhite(s[i])
    ensures forall i :: 0 <= i < |Normalize(s)| ==> !IsWhite(Normalize(s)[i])
  {
    var l := Lower(s);
    assert forall i :: 0 <= i < |l| ==> !IsWhite(l[i]);
    KeepAllowedNoWhite(l);
    var k := KeepAllowed(l);
    assert TrimStart(k) == k;
    assert TrimEnd(k) == k;
  }

  lemma {:induction false} KeepAllowedNoWhite(s: string)
    requires forall i :: 0 <= i < |s| ==> !IsWhite(s[i])
    ensures forall i :: 0 <= i < |KeepAllowed(s)| ==> !IsWhite(KeepAllowed(s)[i])
    decreases |s|
  {
    if s != [] {
      KeepAllowedNoWhite(s[1..]);
    }
  }

  /** Step 1 never matches a multi-word name against a file name without
      whitespace (such as "apple-airpods-pro-3.jpg", which normalizes to
      "appleairpodspro3jpg"): such names are matched by steps 2 and 3 only. */
  lemma {:induction false} SpacedNameMissesStep1(name: string, file: string, k: nat)
    requires k < |Normalize(name)| && IsWhite(Normalize(name)[k])
    requires forall i :: 0 <= i < |file| ==> !IsWhite(file[i])
    ensures !Contains(Normalize(file), Normalize(name))
  {
    NormalizeNoWhite(file);
    if Contains(Normalize(file), Normalize(name)) {
      ContainsNoWhite(Normalize(file), Normalize(name));
    }
  }

  /** Over keys: no hit exactly when no key contains the first word and none
      contains a word longer than two characters. */
  lemma {:induction false} BestHitNoneIff(n: string, keys: seq<string>)
    ensures BestHit(n, keys).None? <==>
      (forall j :: 0 <= j < |keys| ==> !Contains(keys[j], FirstWord(n)))
      && forall w, j :: w in Words(n) && 0 <= j < |keys| && |w| > 2 ==> !Contains(keys[j], w)
  {
    if FirstHit(keys, FirstWord(n)).None? {
      forall j | 0 <= j < |keys|
        ensures !Contains(keys[j], n)
      {
        if Contains(keys[j], n) {
          ContainsPrefix(keys[j], n, FirstWord(n));
        }
      }
    }
  }

  /** No file is found exactly when the normalized name is empty, or no file
      contains its first word and none contains any word longer than two
      characters. (A file containing the whole name contains its first word.) */
  lemma {:induction false} NoMatchIff(name: string, files: seq<string>)
    ensures FindBestMatch(name, files).None? <==>
      var n := Normalize(name);
      n == "" ||
      ((forall j :: 0 <= j < |files| ==> !Contains(Normalize(files[j]), FirstWord(n)))
       && forall w, j :: w in Words(n) && 0 <= j < |files| && |w| > 2 ==> !Contains(Normalize(files[j]), w))
  {
    var n := Normalize(name);
    if n != "" {
      var keys := KeysOf(Normalized, files);
      assert forall j :: 0 <= j < |files| ==> keys[j] == Normalize(files[j]);
      BestHitNoneIff(n, keys);
      assert FindBestMatch(name, files).None? <==> BestHit(n, keys).None?;
    }
  }

  /** The controller's match: the first file whose lower-cased name contains the
      part of the lower-cased product name before the first space, or failing
      that the whole lower-cased name. */
  function ControllerMatch(name: string, files: seq<string>): (r: Option<string>)
    ensures r.Some? ==> r.value in files
  {
    var lname := Lower(name);
    var first := Find(files, Lowered, UpToSpace(lname));
    if first.Some? then first else Find(files, Lowered, lname)
  }

  /** The controller's full-name fallback never changes the result: the first
      word is a prefix of the name, so a file containing the name contains it. */
  lemma {:induction false} ControllerFallbackRedundant(name: string, files: seq<string>)
    ensures ControllerMatch(name, files) == Find(files, Lowered, UpToSpace(Lower(name)))
  {
    var lname := Lower(name);
    var w := UpToSpace(lname);
    var keys := KeysOf(Lowered, files);
    if FirstHit(keys, w).None? {
      forall j | 0 <= j < |files|
        ensures !Contains(keys[j], lname)
      {
        if Contains(keys[j], lname) {
          ContainsPrefix(keys[j], lname, w);
        }
      }
    }
  }

  /** An empty product name matches the first file of a non-empty directory. */
  lemma {:induction false} ControllerEmptyNameTakesFirst(files: seq<string>)
    requires |files| > 0
    ensures ControllerMatch("", files) == Some(files[0])
  {
    var keys := KeysOf(Lowered, files);
    ContainsEmpty(keys[0]);
    FirstHitIsFirst(keys, UpToSpace(Lower("")), 0);
  }

  /** The script ignores dot-files: fs.readdirSync(...).filter(f => !f.startsWith('.')). */
  function VisibleFiles(files: seq<string>): (r: seq<string>)
    ensures forall f :: f in r <==> f in files && !StartsWith(f, ".")
    ensures |r| <= |files|
    decreases |files|
  {
    if files == [] then []
    else (if StartsWith(files[0], ".") then [] else [files[0]]) + VisibleFiles(files[1..])
  }

  /** The filter keeps list order: it works piece by piece. */
  lemma {:induction false} VisibleFilesAppend(a: seq<string>, b: seq<string>)
    ensures VisibleFiles(a + b) == VisibleFiles(a) + VisibleFiles(b)
    decreases |a|
  {
    if a == [] {
      assert a + b == b;
    } else {
      assert (a + b)[1..] == a[1..] + b;
      VisibleFilesAppend(a[1..], b);
    }
  }

  /** A listing without dot-files passes through whole, order and repeats
      included. */
  lemma {:induction false} VisibleFilesKeepsVisible(files: seq<string>)
    requires forall i :: 0 <= i < |files| ==> !StartsWith(files[i], ".")
    ensures VisibleFiles(files) == files
    decreases |files|
  {
    if files != [] {
      VisibleFilesKeepsVisible(files[1..]);
    }
  }

  const IMAGE_PREFIX := "/uploads/products/"

  /** The image reference written for a matched file. */
  function ImagePath(file: string): (r: string)
    ensures StartsWith(r, IMAGE_PREFIX) && r[|IMAGE_PREFIX|..] == file
  {
    IMAGE_PREFIX + file
  }
}
