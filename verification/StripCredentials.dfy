/** Removal of credential-named fields from JSON-like values. */
module StripCredentials {
  import opened Collections

  datatype Json = Atom(text: string) | List(items: seq<Json>) | Dict(entries: seq<Entry>)

  /** Entries in insertion order. */
  datatype Entry = Entry(key: string, value: Json)

  const WORDS := ["key", "token", "secret", "password", "credential"]

  /** Case-insensitive matching of the pattern's letters: ASCII capitals, and the four other
      characters that match i, k and s when case is ignored. */
  function Fold(c: char): char {
    if 'A' <= c <= 'Z' then c + 32 as char
    else if c == '\U{0130}' || c == '\U{0131}' then 'i'
    else if c == '\U{017F}' then 's'
    else if c == '\U{212A}' then 'k'
    else c
  }

  function Folded(s: string): string { seq(|s|, i requires 0 <= i < |s| => Fold(s[i])) }

  predicate OccursAt(word: string, s: string, i: nat) { i + |word| <= |s| && s[i..i + |word|] == word }

  predicate Matches(key: string) {
    exists w | 0 <= w < |WORDS| :: exists i | 0 <= i <= |key| :: OccursAt(WORDS[w], Folded(key), i)
  }

  function Strip(j: Json): Json {
    match j
    case Atom(_) => j
    case List(items) => List(seq(|items|, i requires 0 <= i < |items| => Strip(items[i])))
    case Dict(entries) => Dict(StripEntries(entries))
  }

  function StripEntries(es: seq<Entry>): seq<Entry> {
    if es == [] then []
    else
      var last := es[|es| - 1];
      StripEntries(es[..|es| - 1]) + if Matches(last.key) then [] else [Entry(last.key, Strip(last.value))]
  }

  // ----- what is gone

  /** No field name matches at any depth. */
  ghost predicate Clean(j: Json) {
    match j
    case Atom(_) => true
    case List(items) => forall i :: 0 <= i < |items| ==> Clean(items[i])
    case Dict(entries) => forall i :: 0 <= i < |entries| ==> !Matches(entries[i].key) && Clean(entries[i].value)
  }

  ghost predicate CleanEntries(es: seq<Entry>) {
    forall i :: 0 <= i < |es| ==> !Matches(es[i].key) && Clean(es[i].value)
  }

  lemma {:induction false} StrippedIsClean(j: Json)
    ensures Clean(Strip(j))
  {
    match j
    case Atom(_) =>
    case List(items) =>
      forall i | 0 <= i < |items| ensures Clean(Strip(items[i])) { StrippedIsClean(items[i]); }
    case Dict(entries) => StrippedEntriesAreClean(entries);
  }

  lemma {:induction false} StrippedEntriesAreClean(es: seq<Entry>)
    ensures CleanEntries(StripEntries(es))
  {
    if es != [] {
      StrippedEntriesAreClean(es[..|es| - 1]);
      StrippedIsClean(es[|es| - 1].value);
    }
  }

  /** Stripping changes a value exactly when some field name in it matches. */
  lemma {:induction false} UnchangedIffClean(j: Json)
    ensures Strip(j) == j <==> Clean(j)
  {
    if Strip(j) == j {
      StrippedIsClean(j);
    }
    if Clean(j) {
      CleanIsUnchanged(j);
    }
  }

  lemma {:induction false} CleanIsUnchanged(j: Json)
    requires Clean(j)
    ensures Strip(j) == j
  {
    match j
    case Atom(_) =>
    case List(items) =>
      forall i | 0 <= i < |items| ensures Strip(items[i]) == items[i] { CleanIsUnchanged(items[i]); }
    case Dict(entries) => CleanEntriesAreUnchanged(entries);
  }

  lemma StripEntriesSnoc(front: seq<Entry>, last: Entry)
    ensures StripEntries(front + [last])
         == StripEntries(front) + if Matches(last.key) then [] else [Entry(last.key, Strip(last.value))]
  {
    assert (front + [last])[..|front + [last]| - 1] == front;
  }

  lemma CleanEntriesSnoc(front: seq<Entry>, last: Entry)
    requires CleanEntries(front + [last])
    ensures CleanEntries(front) && !Matches(last.key) && Clean(last.value)
  {
    assert (front + [last])[|front|] == last;
    forall i | 0 <= i < |front| ensures !Matches(front[i].key) && Clean(front[i].value) {
      assert (front + [last])[i] == front[i];
    }
  }

  lemma {:induction false} CleanEntriesAreUnchanged(es: seq<Entry>)
    requires CleanEntries(es)
    ensures StripEntries(es) == es
  {
    if es != [] {
      var front, last := es[..|es| - 1], es[|es| - 1];
      assert es == front + [last];
      CleanEntriesSnoc(front, last);
      CleanEntriesAreUnchanged(front);
      CleanIsUnchanged(last.value);
      StripEntriesSnoc(front, last);
    }
  }

  lemma StripIsIdempotent(j: Json)
    ensures Strip(Strip(j)) == Strip(j)
  {
    StrippedIsClean(j);
    CleanIsUnchanged(Strip(j));
  }

  // ----- what is kept

  datatype Step = Index(i: nat) | Field(key: string)

  ghost function Lookup(es: seq<Entry>, key: string): Option<Json> {
    if es == [] then None
    else
      var before := Lookup(es[..|es| - 1], key);
      if before.Some? then before
      else if es[|es| - 1].key == key then Some(es[|es| - 1].value) else None
  }

  ghost function Child(j: Json, s: Step): Option<Json> {
    match (j, s)
    case (List(items), Index(i)) => if i < |items| then Some(items[i]) else None
    case (Dict(entries), Field(key)) => Lookup(entries, key)
    case _ => None
  }

  ghost function Get(j: Json, path: seq<Step>): Option<Json>
    decreases |path|
  {
    if path == [] then Some(j)
    else match Child(j, path[0])
         case None => None
         case Some(v) => Get(v, path[1..])
  }

  ghost predicate CleanPath(path: seq<Step>) {
    forall s <- path :: s.Field? ==> !Matches(s.key)
  }

  ghost function Stripped(v: Option<Json>): Option<Json> { if v.Some? then Some(Strip(v.value)) else None }

  lemma {:induction false} LookupStripped(es: seq<Entry>, key: string)
    ensures Lookup(StripEntries(es), key) == if Matches(key) then None else Stripped(Lookup(es, key))
  {
    if es != [] {
      var front, last := es[..|es| - 1], es[|es| - 1];
      LookupStripped(front, key);
      var kept := StripEntries(front);
      if Matches(last.key) {
        assert kept + [] == kept;
      } else {
        var e := Entry(last.key, Strip(last.value));
        assert (kept + [e])[..|kept + [e]| - 1] == kept;
      }
    }
  }

  lemma ChildStripped(j: Json, s: Step)
    ensures Child(Strip(j), s) == if s.Field? && Matches(s.key) then None else Stripped(Child(j, s))
  {
    if j.Dict? && s.Field? {
      LookupStripped(j.entries, s.key);
    }
  }

  lemma CleanPathUncons(path: seq<Step>)
    requires path != []
    ensures CleanPath(path) <==> !(path[0].Field? && Matches(path[0].key)) && CleanPath(path[1..])
  {
    assert path == [path[0]] + path[1..];
  }

  /** A path leads somewhere in the stripped value exactly when it leads somewhere in the
      original and no field on it matches; it then leads to the original's value, stripped.
      Leaves and list positions are therefore unchanged. */
  lemma {:induction false} CleanPathsSurvive(j: Json, path: seq<Step>)
    ensures Get(Strip(j), path) == if CleanPath(path) then Stripped(Get(j, path)) else None
    decreases |path|
  {
    if path != [] {
      CleanPathUncons(path);
      ChildStripped(j, path[0]);
      if Child(j, path[0]).Some? {
        CleanPathsSurvive(Child(j, path[0]).value, path[1..]);
      }
    }
  }

  ghost function Keys(es: seq<Entry>): seq<string> { seq(|es|, i requires 0 <= i < |es| => es[i].key) }

  ghost function Unmatched(keys: seq<string>): seq<string> {
    if keys == [] then []
    else Unmatched(keys[..|keys| - 1]) + if Matches(keys[|keys| - 1]) then [] else [keys[|keys| - 1]]
  }

  /** The fields that remain keep their order. */
  lemma {:induction false} FieldOrderKept(es: seq<Entry>)
    ensures Keys(StripEntries(es)) == Unmatched(Keys(es))
  {
    if es != [] {
      var front := es[..|es| - 1];
      FieldOrderKept(front);
      assert Keys(es)[..|es| - 1] == Keys(front);
    }
  }

  // ----- which names match

  /** `c` is the small letter `d`, its capital, or one of the four other characters that match
      i, k or s when case is ignored. */
  predicate IsLetter(c: char, d: char) {
    || c == d
    || ('A' <= c <= 'Z' && 'a' <= d <= 'z' && c as int - 'A' as int == d as int - 'a' as int)
    || (d == 'i' && c in {'\U{0130}', '\U{0131}'}) || (d == 's' && c == '\U{017F}') || (d == 'k' && c == '\U{212A}')
  }

  predicate Spells(s: string, word: string) {
    |s| == |word| && forall i :: 0 <= i < |s| ==> IsLetter(s[i], word[i])
  }

  /** Some stretch of the name spells the word. */
  ghost predicate Mentions(key: string, word: string) {
    exists p, w, q :: key == p + w + q && Spells(w, word)
  }

  predicate Small(word: string) { forall i :: 0 <= i < |word| ==> 'a' <= word[i] <= 'z' }

  lemma FoldIs(c: char, d: char)
    requires 'a' <= d <= 'z'
    ensures Fold(c) == d <==> IsLetter(c, d)
  {
  }

  lemma OccursIff(word: string, key: string, i: nat)
    requires Small(word) && i + |word| <= |key|
    ensures OccursAt(word, Folded(key), i) <==> Spells(key[i..i + |word|], word)
  {
    var s, f := key[i..i + |word|], Folded(key)[i..i + |word|];
    forall k | 0 <= k < |word| ensures f[k] == word[k] <==> IsLetter(s[k], word[k]) {
      FoldIs(s[k], word[k]);
    }
  }

  lemma MentionsIff(word: string, key: string)
    requires Small(word)
    ensures Mentions(key, word) <==> exists i | 0 <= i <= |key| :: OccursAt(word, Folded(key), i)
  {
    if i :| 0 <= i <= |key| && OccursAt(word, Folded(key), i) {
      OccursIff(word, key, i);
      assert key == key[..i] + key[i..i + |word|] + key[i + |word|..];
    }
    if p, w, q :| key == p + w + q && Spells(w, word) {
      assert key[|p|..|p| + |word|] == w;
      OccursIff(word, key, |p|);
    }
  }

  /** A name matches exactly when one of the five words is somewhere in it, in any
      capitalisation; a name with none of them is kept. */
  lemma NamesThatMatch(key: string)
    ensures Matches(key) <==>
            || Mentions(key, "key") || Mentions(key, "token") || Mentions(key, "secret")
            || Mentions(key, "password") || Mentions(key, "credential")
  {
    MentionsIff("key", key);
    MentionsIff("token", key);
    MentionsIff("secret", key);
    MentionsIff("password", key);
    MentionsIff("credential", key);
    assert WORDS[0] == "key" && WORDS[1] == "token" && WORDS[2] == "secret";
    assert WORDS[3] == "password" && WORDS[4] == "credential";
  }
}
