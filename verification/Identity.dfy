/** The identity of a candidate, and the identities the catalog accepts. */
module Identity {

  /** A skill file found on GitHub. */
  datatype Item = Item(path: string, url: string, fullName: string, stars: int)

  /** What the Unicode tables say about one character. */
  datatype Unicode = Unicode(lower: char -> char, space: char -> bool)

  const SLUG_LIMIT: nat := 100

  predicate Plain(c: char) {
    'a' <= c <= 'z' || '0' <= c <= '9'
  }

  /** Plain characters are their own lower case and no white space, like the dash. */
  ghost predicate Sane(u: Unicode) {
    && (forall c :: (Plain(c) || c == '-') ==> u.lower(c) == c && !u.space(c))
    && (forall c :: u.space(c) ==> !Plain(u.lower(c)))
  }

  // --- Slugs ------------------------------------------------------------------------------------

  function Lowered(u: Unicode, s: string): string {
    seq(|s|, i requires 0 <= i < |s| => u.lower(s[i]))
  }

  function TrimSpace(u: Unicode, s: string): string {
    if s == "" then "" else if u.space(s[0]) then TrimSpace(u, s[1..])
    else if u.space(s[|s| - 1]) then TrimSpace(u, s[..|s| - 1]) else s
  }

  function TrimDashes(s: string): string {
    if s == "" then "" else if s[0] == '-' then TrimDashes(s[1..])
    else if s[|s| - 1] == '-' then TrimDashes(s[..|s| - 1]) else s
  }

  /** What the builder holds after reading `s`: plain characters, runs of others as one dash. */
  function Built(s: string): string {
    if s == "" then ""
    else
      var out, c := Built(s[..|s| - 1]), s[|s| - 1];
      if |out| >= SLUG_LIMIT then out
      else if Plain(c) then out + [c]
      else if out != "" && out[|out| - 1] != '-' then out + ['-']
      else out
  }

  function Slug(u: Unicode, value: string): string {
    TrimDashes(Built(Lowered(u, TrimSpace(u, value))))
  }

  lemma {:induction false} BuiltStays(s: string, k: nat)
    requires k <= |s| && |Built(s[..k])| >= SLUG_LIMIT
    ensures Built(s) == Built(s[..k])
    decreases |s|
  {
    if k == |s| {
      assert s[..k] == s;
    } else {
      assert s[..|s| - 1][..k] == s[..k];
      BuiltStays(s[..|s| - 1], k);
    }
  }

  method Slugify(u: Unicode, value: string) returns (slug: string)
    ensures slug == Slug(u, value)
  {
    var lowered := Lowered(u, TrimSpace(u, value));
    var out, dash := "", false;
    for k := 0 to |lowered|
      invariant out == Built(lowered[..k])
      invariant dash <==> out != "" && out[|out| - 1] == '-'
    {
      if |out| >= SLUG_LIMIT {
        BuiltStays(lowered, k);
        return TrimDashes(out);
      }
      var r := lowered[k];
      assert lowered[..k + 1][..k] == lowered[..k];
      if ('a' <= r <= 'z') || ('0' <= r <= '9') {
        out := out + [r];
        dash := false;
      } else if !dash && |out| > 0 {
        out := out + ['-'];
        dash := true;
      }
    }
    assert lowered[..|lowered|] == lowered;
    return TrimDashes(out);
  }

  /** The shape of a slug, stated without the algorithm. */
  predicate SlugLike(s: string) {
    && |s| <= SLUG_LIMIT
    && (forall i | 0 <= i < |s| :: Plain(s[i]) || s[i] == '-')
    && (s != "" ==> s[0] != '-' && s[|s| - 1] != '-')
    && (forall i | 0 < i < |s| :: s[i] == '-' ==> s[i - 1] != '-')
  }

  predicate Dashed(s: string) {
    && |s| <= SLUG_LIMIT
    && (forall i | 0 <= i < |s| :: Plain(s[i]) || s[i] == '-')
    && (s != "" ==> s[0] != '-')
    && (forall i | 0 < i < |s| :: s[i] == '-' ==> s[i - 1] != '-')
  }

  lemma {:induction false} BuiltDashed(s: string)
    ensures Dashed(Built(s))
  {
    if s != "" {
      BuiltDashed(s[..|s| - 1]);
    }
  }

  lemma TrimDashed(s: string)
    requires Dashed(s)
    ensures SlugLike(TrimDashes(s)) && (TrimDashes(s) == "" <==> s == "")
  {
    if s != "" && s[|s| - 1] == '-' {
      var front := s[..|s| - 1];
      assert |front| >= 1;
      assert front[|front| - 1] != '-';
      assert TrimDashes(front) == front;
    }
  }

  /** Slugs are at most 100 characters of [a-z0-9-], without leading, trailing or doubled dash. */
  lemma SlugShape(u: Unicode, value: string)
    ensures SlugLike(Slug(u, value))
  {
    var lowered := Lowered(u, TrimSpace(u, value));
    BuiltDashed(lowered);
    TrimDashed(Built(lowered));
  }

  lemma {:induction false} BuiltFixed(s: string)
    requires Dashed(s)
    ensures Built(s) == s
  {
    if s != "" {
      BuiltFixed(s[..|s| - 1]);
      assert s == s[..|s| - 1] + [s[|s| - 1]];
    }
  }

  /** A string of that shape is its own slug: the slugs are exactly those strings, and making a slug
      twice changes nothing. */
  lemma SlugFixed(u: Unicode, s: string)
    requires Sane(u)
    ensures SlugLike(s) <==> Slug(u, s) == s
  {
    SlugShape(u, s);
    if SlugLike(s) {
      assert TrimSpace(u, s) == s;
      assert Lowered(u, s) == s;
      BuiltFixed(s);
    }
  }

  lemma SlugIdempotent(u: Unicode, value: string)
    requires Sane(u)
    ensures Slug(u, Slug(u, value)) == Slug(u, value)
  {
    SlugShape(u, value);
    SlugFixed(u, Slug(u, value));
  }

  lemma {:induction false} BuiltEmpty(s: string)
    ensures Built(s) == "" <==> forall i | 0 <= i < |s| :: !Plain(s[i])
  {
    if s != "" {
      var front := s[..|s| - 1];
      BuiltEmpty(front);
      assert forall i | 0 <= i < |front| :: front[i] == s[i];
    }
  }

  ghost predicate NothingPlain(u: Unicode, s: string) {
    forall i | 0 <= i < |s| :: !Plain(u.lower(s[i]))
  }

  lemma DropSpace(u: Unicode, s: string)
    requires Sane(u) && s != ""
    ensures u.space(s[0]) ==> (NothingPlain(u, s) <==> NothingPlain(u, s[1..]))
    ensures u.space(s[|s| - 1]) ==> (NothingPlain(u, s) <==> NothingPlain(u, s[..|s| - 1]))
  {
    assert forall i | 0 < i < |s| :: s[i] == s[1..][i - 1];
    assert forall i | 0 <= i < |s| - 1 :: s[i] == s[..|s| - 1][i];
  }

  lemma {:induction false} TrimKeepsPlain(u: Unicode, s: string)
    requires Sane(u)
    ensures NothingPlain(u, s) <==> NothingPlain(u, TrimSpace(u, s))
    decreases |s|
  {
    if s != "" {
      DropSpace(u, s);
      if u.space(s[0]) {
        TrimKeepsPlain(u, s[1..]);
      } else if u.space(s[|s| - 1]) {
        TrimKeepsPlain(u, s[..|s| - 1]);
      }
    }
  }

  /** A slug is empty exactly when no character of the name is a letter a-z or a digit in lower case. */
  lemma SlugEmpty(u: Unicode, value: string)
    requires Sane(u)
    ensures Slug(u, value) == "" <==> forall i | 0 <= i < |value| :: !Plain(u.lower(value[i]))
  {
    var trimmed := TrimSpace(u, value);
    var lowered := Lowered(u, trimmed);
    TrimKeepsPlain(u, value);
    BuiltEmpty(lowered);
    BuiltDashed(lowered);
    TrimDashed(Built(lowered));
    assert forall i | 0 <= i < |trimmed| :: lowered[i] == u.lower(trimmed[i]);
  }

  // --- What a slug is made of ---------------------------------------------------------------------

  /** The words of a string are its maximal runs of plain characters, here from the last one on: what
      follows the last word has no plain character, and what precedes it does not end with one. */
  ghost predicate Spells(s: string, words: seq<string>)
    decreases |words|, 1
  {
    if words == [] then AllOther(s) else exists i, j | 0 <= i < j <= |s| :: EndsIn(s, i, j, words)
  }

  ghost predicate EndsIn(s: string, i: nat, j: nat, words: seq<string>)
    requires i < j <= |s| && words != []
    decreases |words|, 0
  {
    && s[i..j] == words[|words| - 1] && AllPlain(s[i..j]) && AllOther(s[j..]) && (i > 0 ==> !Plain(s[i - 1]))
    && Spells(s[..i], words[..|words| - 1])
  }

  predicate AllPlain(s: string) {
    forall i | 0 <= i < |s| :: Plain(s[i])
  }

  predicate AllOther(s: string) {
    forall i | 0 <= i < |s| :: !Plain(s[i])
  }

  /** The words with one dash between any two. */
  function Joined(words: seq<string>): string {
    if words == [] then ""
    else if |words| == 1 then words[0]
    else Joined(words[..|words| - 1]) + "-" + words[|words| - 1]
  }

  function Cut(s: string): string {
    if |s| <= 100 then s else s[..100]
  }

  /** The builder without its limit. */
  function Unlimited(s: string): string {
    if s == "" then ""
    else
      var out, c := Unlimited(s[..|s| - 1]), s[|s| - 1];
      if Plain(c) then out + [c] else if out != "" && out[|out| - 1] != '-' then out + ['-'] else out
  }

  lemma {:induction false} BuiltIsCut(s: string)
    ensures Built(s) == Cut(Unlimited(s))
  {
    if s != "" {
      BuiltIsCut(s[..|s| - 1]);
      var out := Unlimited(s[..|s| - 1]);
      if |out| >= SLUG_LIMIT {
        assert Cut(Unlimited(s)) == out[..SLUG_LIMIT];
      }
    }
  }

  lemma UnlimitedOneMore(s: string, c: char)
    ensures var out := Unlimited(s);
      Unlimited(s + [c]) ==
        if Plain(c) then out + [c] else if out != "" && out[|out| - 1] != '-' then out + ['-'] else out
  {
    assert (s + [c])[..|s|] == s;
  }

  lemma PlainAppended(s: string, c: char, whole: string)
    requires Plain(c) && whole == s + [c]
    ensures Unlimited(whole) == Unlimited(s) + [c]
  {
    UnlimitedOneMore(s, c);
  }

  lemma Appended(out: string, front: string, c: char, word: string)
    requires word == front + [c]
    ensures out + front + [c] == out + word
  {
  }

  lemma {:induction false} WordAppended(s: string, word: string)
    requires AllPlain(word)
    ensures Unlimited(s + word) == Unlimited(s) + word
    decreases |word|
  {
    if word == "" {
      assert s + word == s;
    } else {
      var front, c := word[..|word| - 1], word[|word| - 1];
      WordAppended(s, front);
      Appended(s, front, c, word);
      PlainAppended(s + front, c, s + word);
      Appended(Unlimited(s), front, c, word);
    }
  }

  lemma {:induction false} GapAppended(s: string, gap: string)
    requires AllOther(gap) && gap != ""
    ensures var out := Unlimited(s);
      Unlimited(s + gap) == if out == "" || out[|out| - 1] == '-' then out else out + "-"
    decreases |gap|
  {
    var front, c := gap[..|gap| - 1], gap[|gap| - 1];
    if front == "" {
      assert gap == [c];
    } else {
      GapAppended(s, front);
      assert s + gap == s + front + [c];
    }
    UnlimitedOneMore(s + front, c);
    assert s + front + [c] == s + gap;
    if front == "" {
      assert s + front == s;
    }
  }

  lemma {:induction false} AllOtherIsEmpty(s: string)
    requires AllOther(s)
    ensures Unlimited(s) == ""
  {
    if s != "" {
      AllOtherIsEmpty(s[..|s| - 1]);
    }
  }

  lemma JoinedOneMore(front: seq<string>, word: string)
    ensures Joined(front + [word]) == if front == [] then word else Joined(front) + "-" + word
  {
    assert (front + [word])[..|front|] == front;
  }

  lemma WordAndGap(before: string, word: string, gap: string)
    requires word != "" && AllPlain(word) && AllOther(gap)
    ensures Unlimited(before + word + gap) == Unlimited(before) + word + (if gap == "" then "" else "-")
  {
    WordAppended(before, word);
    if gap == "" {
      assert before + word + gap == before + word;
    } else {
      var out := Unlimited(before + word);
      assert out[|out| - 1] == word[|word| - 1] && Plain(word[|word| - 1]);
      GapAppended(before + word, gap);
    }
  }

  /** The last word with what is before and after it. */
  lemma SplitOff(s: string, words: seq<string>) returns (before: string, word: string, gap: string)
    requires words != [] && Spells(s, words)
    ensures s == before + word + gap && word == words[|words| - 1]
    ensures word != "" && AllPlain(word) && AllOther(gap) && Spells(before, words[..|words| - 1])
    ensures before != "" ==> !Plain(before[|before| - 1])
  {
    var i, j :| 0 <= i < j <= |s| && EndsIn(s, i, j, words);
    before, word, gap := s[..i], s[i..j], s[j..];
  }

  lemma LastOfJoined(front: seq<string>, word: string)
    requires word != "" && AllPlain(word)
    ensures var out := Joined(front + [word]); out != "" && Plain(out[|out| - 1])
  {
    JoinedOneMore(front, word);
  }

  lemma JoinedEnds(s: string, words: seq<string>)
    requires Spells(s, words)
    ensures words == [] <==> Joined(words) == ""
    ensures words != [] ==> Plain(Joined(words)[|Joined(words)| - 1])
  {
    if words != [] {
      var before, word, gap := SplitOff(s, words);
      LastOfJoined(words[..|words| - 1], word);
      assert words == words[..|words| - 1] + [word];
    }
  }

  lemma LastOther(before: string, word: string, gap: string)
    requires word != "" && AllPlain(word) && AllOther(gap)
    ensures var s := before + word + gap; !Plain(s[|s| - 1]) <==> gap != ""
  {
    var s := before + word + gap;
    if gap == "" {
      assert s[|s| - 1] == word[|word| - 1];
    } else {
      assert s[|s| - 1] == gap[|gap| - 1];
    }
  }

  /** The words joined, and a dash if more follows the last one. */
  ghost predicate JoinsTo(out: string, s: string, words: seq<string>) {
    out == Joined(words) + (if words != [] && s != "" && !Plain(s[|s| - 1]) then "-" else "")
  }

  /** One more word after others that are followed by a dash. */
  lemma JoinedWith(out: string, front: seq<string>, word: string)
    requires out == if front == [] then "" else Joined(front) + "-"
    ensures out + word == Joined(front + [word])
  {
    JoinedOneMore(front, word);
    if front == [] {
      assert "" + word == word;
    }
  }

  lemma JoinsEnd(out: string, s: string, words: seq<string>, dash: bool)
    requires words != [] && s != "" && (!Plain(s[|s| - 1]) <==> dash)
    requires out == Joined(words) + (if dash then "-" else "")
    ensures JoinsTo(out, s, words)
  {
  }

  lemma JoinsStart(out: string, s: string, words: seq<string>)
    requires JoinsTo(out, s, words) && (words != [] ==> s != "" && !Plain(s[|s| - 1]))
    ensures out == if words == [] then "" else Joined(words) + "-"
  {
  }

  lemma JoinsOneMore(before: string, front: seq<string>, word: string, gap: string)
    requires JoinsTo(Unlimited(before), before, front) && word != "" && AllPlain(word) && AllOther(gap)
    requires front != [] ==> before != "" && !Plain(before[|before| - 1])
    ensures JoinsTo(Unlimited(before + word + gap), before + word + gap, front + [word])
  {
    JoinsStart(Unlimited(before), before, front);
    WordAndGap(before, word, gap);
    JoinedWith(Unlimited(before), front, word);
    LastOther(before, word, gap);
    JoinsEnd(Unlimited(before + word + gap), before + word + gap, front + [word], gap != "");
  }

  lemma SpelledNotEmpty(s: string, words: seq<string>)
    requires Spells(s, words) && words != []
    ensures s != ""
  {
    var before, word, gap := SplitOff(s, words);
  }

  /** What the builder makes of a string with these words. */
  lemma {:induction false} UnlimitedIsJoined(s: string, words: seq<string>)
    requires Spells(s, words)
    ensures JoinsTo(Unlimited(s), s, words)
    decreases |words|
  {
    if words == [] {
      AllOtherIsEmpty(s);
    } else {
      var front := words[..|words| - 1];
      var before, word, gap := SplitOff(s, words);
      UnlimitedIsJoined(before, front);
      if front != [] {
        SpelledNotEmpty(before, front);
      }
      JoinsOneMore(before, front, word, gap);
      assert words == front + [word];
    }
  }

  /** Where the last plain character of a string is, and where its run begins. */
  lemma {:induction false} LastPlain(s: string) returns (j: nat)
    requires !AllOther(s)
    ensures 0 < j <= |s| && Plain(s[j - 1]) && AllOther(s[j..])
  {
    var n := |s| - 1;
    if Plain(s[n]) {
      j := |s|;
    } else {
      assert s == s[..n] + [s[n]];
      j := LastPlain(s[..n]);
      assert s[j..] == s[..n][j..] + [s[n]];
    }
  }

  lemma {:induction false} RunStart(s: string, j: nat) returns (i: nat)
    requires 0 < j <= |s| && Plain(s[j - 1])
    ensures i < j && AllPlain(s[i..j]) && (i > 0 ==> !Plain(s[i - 1]))
  {
    if j == 1 || !Plain(s[j - 2]) {
      i := j - 1;
    } else {
      i := RunStart(s, j - 1);
      assert s[i..j] == s[i..j - 1] + [s[j - 1]];
    }
  }

  /** Every string has words. */
  lemma {:induction false} WordsOf(s: string) returns (words: seq<string>)
    ensures Spells(s, words)
  {
    if AllOther(s) {
      words := [];
    } else {
      var j := LastPlain(s);
      var i := RunStart(s, j);
      var front := WordsOf(s[..i]);
      words := front + [s[i..j]];
      assert words[..|words| - 1] == front;
      assert EndsIn(s, i, j, words);
    }
  }

  lemma DropOtherLast(s: string, words: seq<string>)
    requires s != "" && !Plain(s[|s| - 1]) && Spells(s, words)
    ensures Spells(s[..|s| - 1], words)
  {
    var front := s[..|s| - 1];
    if words != [] {
      var i, j :| 0 <= i < j <= |s| && EndsIn(s, i, j, words);
      assert Plain(s[i..j][j - i - 1]);
      assert front[i..j] == s[i..j] && front[..i] == s[..i];
      assert forall k | 0 <= k < |front| - j :: front[j..][k] == s[j..][k];
      assert EndsIn(front, i, j, words);
    }
  }

  lemma {:induction false} DropOtherFirst(s: string, words: seq<string>)
    requires s != "" && !Plain(s[0]) && Spells(s, words)
    ensures Spells(s[1..], words)
    decreases |words|
  {
    var rest := s[1..];
    if words != [] {
      var i, j :| 0 <= i < j <= |s| && EndsIn(s, i, j, words);
      assert Plain(s[i..j][0]);
      assert i > 0;
      DropOtherFirst(s[..i], words[..|words| - 1]);
      assert s[..i][1..] == rest[..i - 1] && rest[i - 1..j - 1] == s[i..j] && rest[j - 1..] == s[j..];
      assert EndsIn(rest, i - 1, j - 1, words);
    }
  }

  /** Trimming white space does not change the words. */
  lemma {:induction false} TrimKeepsWords(u: Unicode, s: string, words: seq<string>)
    requires Sane(u) && Spells(Lowered(u, s), words)
    ensures Spells(Lowered(u, TrimSpace(u, s)), words)
    decreases |s|
  {
    if s != "" {
      if u.space(s[0]) {
        DropOtherFirst(Lowered(u, s), words);
        assert Lowered(u, s)[1..] == Lowered(u, s[1..]);
        TrimKeepsWords(u, s[1..], words);
      } else if u.space(s[|s| - 1]) {
        DropOtherLast(Lowered(u, s), words);
        assert Lowered(u, s)[..|s| - 1] == Lowered(u, s[..|s| - 1]);
        TrimKeepsWords(u, s[..|s| - 1], words);
      }
    }
  }

  function WithoutLastDash(s: string): string {
    if s != "" && s[|s| - 1] == '-' then s[..|s| - 1] else s
  }

  lemma TrimIsLastDash(s: string)
    requires Dashed(s)
    ensures TrimDashes(s) == WithoutLastDash(s)
  {
    if s != "" && s[|s| - 1] == '-' {
      var front := s[..|s| - 1];
      assert |front| >= 1;
      assert front[|front| - 1] != '-';
      assert TrimDashes(front) == front;
    }
  }

  /** Cutting first and dropping a dash at the end hides whether one followed the words. */
  lemma CutHidesDash(joined: string, out: string)
    requires joined == "" || Plain(joined[|joined| - 1])
    requires out == joined || out == joined + "-"
    ensures WithoutLastDash(Cut(out)) == WithoutLastDash(Cut(joined)) || joined == ""
  {
    if out != joined {
      if |joined| < SLUG_LIMIT {
        assert out[..|joined|] == joined;
      } else {
        assert out[..SLUG_LIMIT] == joined[..SLUG_LIMIT];
      }
    }
  }

  /** A slug is its name's words in lower case, joined by single dashes, cut after 100 characters and never
      ending with a dash. */
  lemma SlugIsWords(u: Unicode, value: string, words: seq<string>)
    requires Sane(u) && Spells(Lowered(u, value), words)
    ensures Slug(u, value) == WithoutLastDash(Cut(Joined(words)))
  {
    var lowered := Lowered(u, TrimSpace(u, value));
    TrimKeepsWords(u, value, words);
    UnlimitedIsJoined(lowered, words);
    BuiltIsCut(lowered);
    BuiltDashed(lowered);
    TrimIsLastDash(Built(lowered));
    JoinedEnds(lowered, words);
    JoinsMeans(Unlimited(lowered), lowered, words);
    CutHidesDash(Joined(words), Unlimited(lowered));
  }

  lemma JoinsMeans(out: string, s: string, words: seq<string>)
    requires JoinsTo(out, s, words)
    ensures out == Joined(words) || out == Joined(words) + "-"
    ensures words == [] ==> out == ""
  {
  }

  // --- Paths and identities ---------------------------------------------------------------------

  function Split(s: string): (parts: seq<string>)
    ensures |parts| >= 1
  {
    if s == "" then [""]
    else if s[0] == '/' then [""] + Split(s[1..])
    else
      var rest := Split(s[1..]);
      [[s[0]] + rest[0]] + rest[1..]
  }

  /** Everything before the last slash of a clean path, "." if there is none. */
  function DirOf(path: string): string {
    if '/' !in path then "." else if path[|path| - 1] == '/' then path[..|path| - 1] else DirOf(path[..|path| - 1])
  }

  function BaseOf(path: string): string {
    if path == "" || path[|path| - 1] == '/' then "" else BaseOf(path[..|path| - 1]) + [path[|path| - 1]]
  }

  function Depth(path: string): nat {
    if path == "" then 0 else Depth(path[1..]) + (if path[0] == '/' then 1 else 0)
  }

  function BeforeSlash(s: string): string {
    if s == "" || s[0] == '/' then "" else [s[0]] + BeforeSlash(s[1..])
  }

  function AfterSlash(s: string): string {
    if s == "" then "" else if s[0] == '/' then s[1..] else AfterSlash(s[1..])
  }

  /** Owner and repository: split at the first slash. */
  function SourceParts(source: string): (string, string) {
    if '/' in source then (BeforeSlash(source), AfterSlash(source)) else (source, source)
  }

  function SlugBase(item: Item): string {
    var folder := DirOf(item.path);
    if folder == "." then SourceParts(item.fullName).1 else BaseOf(folder)
  }

  function SlugOf(u: Unicode, item: Item): string {
    Slug(u, SlugBase(item))
  }

  function IdOf(u: Unicode, item: Item): string {
    item.fullName + "/" + SlugOf(u, item)
  }

  /** Folder and name of a path are what precedes and what follows its last slash. */
  lemma {:induction false} PathParts(folder: string, name: string)
    requires '/' !in name
    ensures DirOf(folder + "/" + name) == folder && BaseOf(folder + "/" + name) == name
    decreases |name|
  {
    var path := folder + "/" + name;
    if name == "" {
      assert path[..|path| - 1] == folder;
    } else {
      var front := name[..|name| - 1];
      PathParts(folder, front);
      assert path[..|path| - 1] == folder + "/" + front;
      assert '/' in path[..|path| - 1] by {
        assert path[|folder|] == '/';
      }
      assert name == front + [name[|name| - 1]];
    }
  }

  lemma {:induction false} NameOnly(name: string)
    requires '/' !in name
    ensures DirOf(name) == "." && BaseOf(name) == name
  {
    if name != "" {
      NameOnly(name[..|name| - 1]);
      assert name == name[..|name| - 1] + [name[|name| - 1]];
    }
  }

  lemma {:induction false} OwnerAndName(owner: string, name: string)
    requires '/' !in owner
    ensures SourceParts(owner + "/" + name) == (owner, name)
  {
    var source := owner + "/" + name;
    assert source[|owner|] == '/';
    if owner == "" {
      assert source == "/" + name && source[1..] == name;
    } else {
      OwnerAndName(owner[1..], name);
      assert source[1..] == owner[1..] + "/" + name;
      assert source[1..][|owner| - 1] == '/';
      assert owner == [owner[0]] + owner[1..];
    }
  }

  lemma {:induction false} DepthAdds(folder: string, path: string)
    ensures Depth(folder + "/" + path) == Depth(folder) + 1 + Depth(path)
  {
    if folder == "" {
      assert folder + "/" + path == "/" + path && ("/" + path)[1..] == path;
    } else {
      DepthAdds(folder[1..], path);
      assert (folder + "/" + path)[1..] == folder[1..] + "/" + path;
    }
  }

  lemma {:induction false} DepthOfName(name: string)
    requires '/' !in name
    ensures Depth(name) == 0
  {
    if name != "" {
      DepthOfName(name[1..]);
    }
  }

  /** The identity of a skill file: its repository, and the slug of the folder it is in, or of the
      repository's name when it is at the root. */
  lemma IdentityIs(u: Unicode, owner: string, repository: string, above: string, folder: string, name: string,
                   url: string, stars: int)
    requires '/' !in owner && '/' !in folder && '/' !in name && folder != "."
    ensures var source := owner + "/" + repository;
      && IdOf(u, Item(above + "/" + folder + "/" + name, url, source, stars)) == source + "/" + Slug(u, folder)
      && IdOf(u, Item(folder + "/" + name, url, source, stars)) == source + "/" + Slug(u, folder)
      && IdOf(u, Item(name, url, source, stars)) == source + "/" + Slug(u, repository)
  {
    PathParts(above + "/" + folder, name);
    PathParts(above, folder);
    PathParts(folder, name);
    NameOnly(folder);
    NameOnly(name);
    OwnerAndName(owner, repository);
    assert (above + "/" + folder)[|above|] == '/';
  }

  lemma LastOf(a: string, s: string)
    ensures var whole := a + "/" + s;
      whole[|whole| - 1] == if s == "" then '/' else s[|s| - 1]
  {
  }

  lemma {:induction false} LastSlash(a: string, s: string, b: string, t: string)
    requires '/' !in s && '/' !in t && a + "/" + s == b + "/" + t
    ensures a == b && s == t
    decreases |s|
  {
    var whole := a + "/" + s;
    LastOf(a, s);
    LastOf(b, t);
    if s == "" || t == "" {
      assert s == "" && t == "";
      assert a == whole[..|whole| - 1] && b == whole[..|whole| - 1];
    } else {
      assert a + "/" + s[..|s| - 1] == whole[..|whole| - 1] == b + "/" + t[..|t| - 1];
      LastSlash(a, s[..|s| - 1], b, t[..|t| - 1]);
      assert s == s[..|s| - 1] + [s[|s| - 1]] && t == t[..|t| - 1] + [t[|t| - 1]];
    }
  }

  /** Identities of different repositories never collide; in one repository they collide exactly when
      the slugs do. */
  lemma IdsCollide(u: Unicode, a: Item, b: Item)
    ensures IdOf(u, a) == IdOf(u, b) <==> a.fullName == b.fullName && SlugOf(u, a) == SlugOf(u, b)
  {
    SlugShape(u, SlugBase(a));
    SlugShape(u, SlugBase(b));
    if IdOf(u, a) == IdOf(u, b) {
      LastSlash(a.fullName, SlugOf(u, a), b.fullName, SlugOf(u, b));
    }
  }

  // --- What the HTTP interface accepts ------------------------------------------------------------

  predicate IdCharacter(c: char) {
    'a' <= c <= 'z' || 'A' <= c <= 'Z' || '0' <= c <= '9' || c == '-' || c == '_' || c == '.'
  }

  predicate PartAccepted(p: string) {
    p != "" && p != "." && p != ".." && |p| <= 100 && forall i | 0 <= i < |p| :: IdCharacter(p[i])
  }

  predicate IdAccepted(id: string) {
    var parts := Split(id);
    |parts| == 3 && forall k | 0 <= k < 3 :: PartAccepted(parts[k])
  }

  method ValidID(id: string) returns (valid: bool)
    ensures valid <==> IdAccepted(id)
  {
    var parts := Split(id);
    if |parts| != 3 {
      return false;
    }
    for k := 0 to |parts|
      invariant forall m | 0 <= m < k :: PartAccepted(parts[m])
    {
      var p := parts[k];
      if p == "" || p == "." || p == ".." || |p| > 100 {
        assert !PartAccepted(parts[k]);
        return false;
      }
      for i := 0 to |p|
        invariant forall j | 0 <= j < i :: IdCharacter(p[j])
      {
        if !IdCharacter(p[i]) {
          assert !PartAccepted(parts[k]);
          return false;
        }
      }
    }
    return true;
  }

  /** The parts with a slash between any two. */
  function Glued(parts: seq<string>): string
    requires parts != []
  {
    if |parts| == 1 then parts[0] else parts[0] + "/" + Glued(parts[1..])
  }

  lemma GlueSlash(rest: seq<string>)
    requires rest != []
    ensures Glued([""] + rest) == "/" + Glued(rest)
  {
    assert ([""] + rest)[1..] == rest;
    assert "" + "/" + Glued(rest) == "/" + Glued(rest);
  }

  lemma GlueChar(c: char, rest: seq<string>)
    requires rest != []
    ensures Glued([[c] + rest[0]] + rest[1..]) == [c] + Glued(rest)
  {
    var parts := [[c] + rest[0]] + rest[1..];
    assert parts[1..] == rest[1..];
    if |rest| > 1 {
      assert [c] + rest[0] + "/" + Glued(rest[1..]) == [c] + (rest[0] + "/" + Glued(rest[1..]));
    }
  }

  lemma {:induction false} SplitGlues(s: string)
    ensures Glued(Split(s)) == s
  {
    if s != "" {
      SplitGlues(s[1..]);
      if s[0] == '/' {
        GlueSlash(Split(s[1..]));
      } else {
        GlueChar(s[0], Split(s[1..]));
      }
      assert s == [s[0]] + s[1..];
    }
  }

  lemma ThreeGlued(parts: seq<string>)
    requires |parts| == 3
    ensures Glued(parts) == parts[0] + "/" + parts[1] + "/" + parts[2]
  {
    assert parts[1..][1..] == [parts[2]] && Glued([parts[2]]) == parts[2];
    assert Glued(parts[1..]) == parts[1] + "/" + parts[2];
  }

  /** The accepted identities, written out: three parts between slashes, each of 1 to 100 letters, digits,
      dashes, underscores and dots, and neither "." nor "..". */
  lemma AcceptedIs(id: string)
    ensures IdAccepted(id) <==> exists a, b, c :: ThreeParts(id, a, b, c)
  {
    if IdAccepted(id) {
      var parts := Split(id);
      SplitGlues(id);
      ThreeGlued(parts);
      assert PartAccepted(parts[0]) && PartAccepted(parts[1]) && PartAccepted(parts[2]);
      assert ThreeParts(id, parts[0], parts[1], parts[2]);
    }
    if a, b, c :| ThreeParts(id, a, b, c) {
      SplitLast(a + "/" + b, c);
      SplitLast(a, b);
      SplitPart(a);
    }
  }

  predicate ThreeParts(id: string, a: string, b: string, c: string) {
    id == a + "/" + b + "/" + c && GoodPart(a) && GoodPart(b) && GoodPart(c)
  }

  predicate GoodPart(p: string) {
    && 1 <= |p| <= 100 && p != "." && p != ".."
    && forall i | 0 <= i < |p| ::
         'a' <= p[i] <= 'z' || 'A' <= p[i] <= 'Z' || '0' <= p[i] <= '9' || p[i] == '-' || p[i] == '_' || p[i] == '.'
  }

  /** A repository name the catalog can serve: an owner and a name. */
  predicate SourceAccepted(source: string) {
    var parts := Split(source);
    |parts| == 2 && PartAccepted(parts[0]) && PartAccepted(parts[1])
  }

  lemma {:induction false} SplitPart(t: string)
    requires '/' !in t
    ensures Split(t) == [t]
  {
    if t != "" {
      SplitPart(t[1..]);
      assert t == [t[0]] + t[1..];
    }
  }

  lemma {:induction false} SplitLast(s: string, t: string)
    requires '/' !in t
    ensures Split(s + "/" + t) == Split(s) + [t]
  {
    if s == "" {
      assert s + "/" + t == "/" + t && ("/" + t)[1..] == t;
      SplitPart(t);
    } else {
      SplitLast(s[1..], t);
      assert (s + "/" + t)[1..] == s[1..] + "/" + t;
      assert (s + "/" + t)[0] == s[0];
      var rest := Split(s[1..]);
      assert (rest + [t])[0] == rest[0] && (rest + [t])[1..] == rest[1..] + [t];
    }
  }

  lemma SlugAccepted(slug: string)
    requires SlugLike(slug)
    ensures PartAccepted(slug) <==> slug != ""
    ensures '/' !in slug
  {
    assert slug != "" ==> slug[0] != '.';
  }

  /** Which generated identities the catalog can serve: exactly those of repositories with an
      acceptable owner and name whose folder (or repository) name has a letter a-z or a digit. */
  lemma GeneratedIdAccepted(u: Unicode, item: Item)
    requires Sane(u)
    ensures IdAccepted(IdOf(u, item)) <==>
      (SourceAccepted(item.fullName) && exists i :: 0 <= i < |SlugBase(item)| && Plain(u.lower(SlugBase(item)[i])))
  {
    var slug := SlugOf(u, item);
    SlugShape(u, SlugBase(item));
    SlugAccepted(slug);
    SplitLast(item.fullName, slug);
    SlugEmpty(u, SlugBase(item));
    var parts := Split(item.fullName);
    assert Split(IdOf(u, item)) == parts + [slug];
    if |parts| == 2 {
      assert (parts + [slug])[0] == parts[0] && (parts + [slug])[1] == parts[1] && (parts + [slug])[2] == slug;
    }
  }

  /** So not every generated identity is served, even of an acceptable repository. */
  lemma UnservableIdentity(u: Unicode)
    requires Sane(u)
    ensures var item := Item("SKILL.md", "", "o/-", 11);
      SourceAccepted(item.fullName) && !IdAccepted(IdOf(u, item))
  {
    var item := Item("SKILL.md", "", "o/-", 11);
    assert "o/-"[1..] == "/-" && "/-"[1..] == "-";
    SplitPart("-");
    SplitPart("o");
    assert "o" + "/" + "-" == "o/-";
    SplitLast("o", "-");
    assert SlugBase(item) == "-";
    GeneratedIdAccepted(u, item);
  }
}
