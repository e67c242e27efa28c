/** The avatar menu of src/components/dashboard/user-profile.tsx: the
    initials shown when there is no photo, and which Google Fit items the
    menu offers. */
module UserProfile {
  import opened Wrappers

  /** `s.split(' ')`: the pieces between single spaces; empty pieces are
      kept, and the empty string splits into one empty piece. */
  function Split(s: string): (parts: seq<string>)
    ensures |parts| >= 1
    ensures forall i :: 0 <= i < |parts| ==> ' ' !in parts[i]
  {
    if s == [] then [""]
    else
      var rest := Split(s[1..]);
      if s[0] == ' ' then [""] + rest
      else [[s[0]] + rest[0]] + rest[1..]
  }

  /** `parts.join(' ')`. */
  function Join(parts: seq<string>): string
    requires |parts| >= 1
  {
    if |parts| == 1 then parts[0] else parts[0] + " " + Join(parts[1..])
  }

  lemma {:induction false} JoinSplit(s: string)
    ensures Join(Split(s)) == s
  {
    if s != [] {
      var rest := Split(s[1..]);
      JoinSplit(s[1..]);
      if s[0] == ' ' {
        assert ([""] + rest)[1..] == rest;
      } else {
        var parts := [[s[0]] + rest[0]] + rest[1..];
        if |rest| > 1 {
          assert parts[1..] == rest[1..];
        }
      }
    }
  }

  lemma {:induction false} SplitJoin(parts: seq<string>)
    requires |parts| >= 1
    requires forall i :: 0 <= i < |parts| ==> ' ' !in parts[i]
    ensures Split(Join(parts)) == parts
  {
    if |parts| == 1 {
      SplitWord(parts[0]);
    } else {
      SplitJoin(parts[1..]);
      SplitWordThen(parts[0], Join(parts[1..]));
      assert [parts[0]] + parts[1..] == parts;
    }
  }

  lemma {:induction false} SplitWord(w: string)
    requires ' ' !in w
    ensures Split(w) == [w]
  {
    if w != [] {
      SplitWord(w[1..]);
      assert [w[0]] + w[1..] == w;
    }
  }

  /** A word followed by a space starts the split with that word. */
  lemma {:induction false} SplitWordThen(w: string, t: string)
    requires ' ' !in w
    ensures Split(w + " " + t) == [w] + Split(t)
  {
    if w == [] {
      assert w + " " + t == [' '] + t;
      assert (w + " " + t)[1..] == t;
    } else {
      assert (w + " " + t)[1..] == w[1..] + " " + t;
      SplitWordThen(w[1..], t);
      assert [w[0]] + w[1..] == w;
    }
  }

  /** The text `${s[0]}` gives: the first character, or "undefined" for an
      empty string. */
  function FirstCharText(s: string): (t: string)
    ensures s != [] ==> t == [s[0]]
    ensures s == [] ==> t == "undefined"
  {
    if s == [] then "undefined" else [s[0]]
  }

  function Min(a: int, b: int): int {
    if a < b then a else b
  }

  /** `getInitials` as written: "U" without a name, the first characters of
      the first and last space-separated pieces, or the first two characters
      of a name without spaces. */
  function GetInitialsAsWritten(name: Option<string>): (r: string)
    ensures !TruthyString(name) ==> r == "U"
    ensures TruthyString(name) && |Split(name.value)| > 1 ==>
      r == FirstCharText(Split(name.value)[0]) + FirstCharText(Split(name.value)[|Split(name.value)| - 1])
    ensures TruthyString(name) && |Split(name.value)| == 1 ==> r == name.value[..Min(2, |name.value|)]
  {
    if !TruthyString(name) then "U"
    else
      var names := Split(name.value);
      if |names| > 1 then FirstCharText(names[0]) + FirstCharText(names[|names| - 1])
      else name.value[..Min(2, |name.value|)]
  }

  /** A display name with a trailing space shows "undefined" in the avatar. */
  lemma TrailingSpaceShowsUndefined()
    ensures GetInitialsAsWritten(Some("Ana ")) == "Aundefined"
  {
  }

  /** The non-empty pieces of a name, in order. */
  function Words(parts: seq<string>): (ws: seq<string>)
    ensures |ws| <= |parts|
    ensures forall i :: 0 <= i < |ws| ==> ws[i] != "" && ws[i] in parts
  {
    if parts == [] then []
    else if parts[0] == "" then Words(parts[1..])
    else [parts[0]] + Words(parts[1..])
  }

  lemma {:induction false} WordsOfNonEmpty(parts: seq<string>)
    requires forall i :: 0 <= i < |parts| ==> parts[i] != ""
    ensures Words(parts) == parts
  {
    if parts != [] {
      WordsOfNonEmpty(parts[1..]);
      assert [parts[0]] + parts[1..] == parts;
    }
  }

  /** `getInitials` as evidently intended: runs of spaces separate words,
      and a name without any word shows "U". */
  function GetInitials(name: Option<string>): (r: string)
    ensures 1 <= |r| <= 2
    ensures r == "U" || (name.Some? && forall i :: 0 <= i < |r| ==> r[i] in name.value)
    ensures !TruthyString(name) ==> r == "U"
    ensures TruthyString(name) && |Words(Split(name.value))| > 1 ==>
      var ws := Words(Split(name.value));
      r == [ws[0][0], ws[|ws| - 1][0]]
  {
    if !TruthyString(name) then "U"
    else
      var ws := Words(Split(name.value));
      if |ws| > 1 then
        WordChars(name.value, ws[0]);
        WordChars(name.value, ws[|ws| - 1]);
        [ws[0][0], ws[|ws| - 1][0]]
      else if |ws| == 1 then
        WordChars(name.value, ws[0]);
        ws[0][..Min(2, |ws[0]|)]
      else "U"
  }

  /** Every character of a piece of the split is a character of the name. */
  lemma {:induction false} WordChars(s: string, w: string)
    requires w in Split(s)
    ensures forall i :: 0 <= i < |w| ==> w[i] in s
  {
    if s != [] {
      var rest := Split(s[1..]);
      if s[0] == ' ' {
        if w != "" {
          WordChars(s[1..], w);
        }
      } else if w == [s[0]] + rest[0] {
        WordChars(s[1..], rest[0]);
        forall i | 0 <= i < |w|
          ensures w[i] in s
        {
          if i > 0 {
            assert w[i] == rest[0][i - 1];
            assert rest[0][i - 1] in s[1..];
          }
        }
      } else {
        WordChars(s[1..], w);
      }
    }
  }

  /** On names without leading, trailing or doubled spaces the corrected
      initials are the ones the source computes. */
  lemma {:induction false} InitialsAgreeOnWellFormedNames(name: Option<string>)
    requires name.Some? ==> forall i :: 0 <= i < |Split(name.value)| ==> Split(name.value)[i] != ""
    ensures GetInitials(name) == GetInitialsAsWritten(name)
  {
    if TruthyString(name) {
      var parts := Split(name.value);
      WordsOfNonEmpty(parts);
      if |parts| == 1 {
        JoinSplit(name.value);
        assert name.value == parts[0];
      }
    }
  }

  /** The Google Fit menu item can start a connection only without a token. */
  predicate ConnectEnabled(fitToken: Option<string>) {
    !TruthyString(fitToken)
  }

  /** The disconnect item is present only with a token. */
  predicate DisconnectShown(fitToken: Option<string>) {
    TruthyString(fitToken)
  }

  lemma ConnectOrDisconnect(fitToken: Option<string>)
    ensures ConnectEnabled(fitToken) != DisconnectShown(fitToken)
  {
  }
}
