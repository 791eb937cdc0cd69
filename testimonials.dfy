/** The testimonial cards' avatar initials:
    `author.split(' ').map(n => n[0]).join('')`. Splitting on a single space
    keeps the empty pieces that leading, trailing or repeated spaces create;
    `n[0]` of an empty piece is undefined, which `join` writes as "". */
module Testimonials {

  const Space := ' '

  /** `s.split(' ')`: the pieces between the spaces, in order, empty ones included. */
  function Split(s: string): (pieces: seq<string>)
    ensures |pieces| >= 1
    ensures forall k :: 0 <= k < |pieces| ==> Space !in pieces[k]
  {
    if s == [] then [[]]
    else
      var rest := Split(s[1..]);
      if s[0] == Space then [[]] + rest
      else [[s[0]] + rest[0]] + rest[1..]
  }

  /** `pieces.join(' ')`, the inverse of Split. */
  function Join(pieces: seq<string>): string
  {
    if pieces == [] then []
    else if |pieces| == 1 then pieces[0]
    else pieces[0] + [Space] + Join(pieces[1..])
  }

  /** `n[0]` as `join` renders it: the first character, or "" for an empty piece. */
  function FirstChar(piece: string): string
  {
    if piece == [] then [] else [piece[0]]
  }

  /** `pieces.map(n => n[0]).join('')`. */
  function JoinFirstChars(pieces: seq<string>): string
  {
    if pieces == [] then [] else FirstChar(pieces[0]) + JoinFirstChars(pieces[1..])
  }

  /** The initials shown in an author's avatar. */
  function Initials(author: string): string
  {
    JoinFirstChars(Split(author))
  }

  /** An independent reading of the initials: scanning left to right, keep each
      non-space character that starts the text or follows a space. */
  function WordStarts(s: string, atStart: bool): string
  {
    if s == [] then []
    else if s[0] == Space then WordStarts(s[1..], true)
    else (if atStart then [s[0]] else []) + WordStarts(s[1..], false)
  }

  /** Splitting and joining again gives back the original text. */
  lemma {:induction false} JoinSplit(s: string)
    ensures Join(Split(s)) == s
  {
    if s != [] {
      var rest := Split(s[1..]);
      JoinSplit(s[1..]);
      if s[0] == Space {
        assert ([[]] + rest)[1..] == rest;
      } else {
        var pieces := [[s[0]] + rest[0]] + rest[1..];
        if |rest| > 1 {
          assert pieces[1..] == rest[1..];
        }
      }
    }
  }

  /** One more piece than there are spaces. */
  lemma {:induction false} SplitCount(s: string)
    ensures |Split(s)| == multiset(s)[Space] + 1
  {
    if s != [] {
      SplitCount(s[1..]);
      assert s == [s[0]] + s[1..];
      assert multiset(s) == multiset([s[0]]) + multiset(s[1..]);
    }
  }

  /** The first characters of the pieces after the first (or of all pieces)
      are exactly the word starts found by the left-to-right scan. */
  lemma {:induction false} InitialsScan(s: string, atStart: bool)
    ensures WordStarts(s, atStart) == if atStart then JoinFirstChars(Split(s)) else JoinFirstChars(Split(s)[1..])
  {
    if s != [] {
      var rest := Split(s[1..]);
      if s[0] == Space {
        InitialsScan(s[1..], true);
        assert ([[]] + rest)[1..] == rest;
      } else {
        InitialsScan(s[1..], false);
        var pieces := [[s[0]] + rest[0]] + rest[1..];
        assert pieces[1..] == rest[1..];
      }
    }
  }

  /** The initials are the characters that start a space-separated word, in order. */
  lemma InitialsAreWordStarts(author: string)
    ensures Initials(author) == WordStarts(author, true)
  {
    InitialsScan(author, true);
  }

  /** At most one character per piece, exactly one for each piece when no piece is empty. */
  lemma {:induction false} JoinFirstCharsLength(pieces: seq<string>)
    ensures |JoinFirstChars(pieces)| <= |pieces|
    ensures |JoinFirstChars(pieces)| == |pieces| <==> forall k :: 0 <= k < |pieces| ==> pieces[k] != []
  {
    if pieces != [] {
      JoinFirstCharsLength(pieces[1..]);
      assert forall k :: 1 <= k < |pieces| ==> pieces[k] == pieces[1..][k - 1];
    }
  }

  /** The initials have at most as many characters as there are pieces, with
      equality exactly when no piece is empty. */
  lemma InitialsLength(author: string)
    ensures |Initials(author)| <= |Split(author)|
    ensures |Initials(author)| == |Split(author)| <==> forall k :: 0 <= k < |Split(author)| ==> Split(author)[k] != []
  {
    JoinFirstCharsLength(Split(author));
  }

  /** A leading space adds an empty first piece, which contributes nothing. */
  lemma LeadingSpaceIgnored(author: string)
    ensures Initials([Space] + author) == Initials(author)
  {
    InitialsAreWordStarts([Space] + author);
    InitialsAreWordStarts(author);
    assert ([Space] + author)[1..] == author;
  }

  /** A doubled space adds an empty piece, which contributes nothing. */
  lemma {:induction false} DoubleSpaceIgnored(x: string, y: string, atStart: bool)
    ensures WordStarts(x + [Space, Space] + y, atStart) == WordStarts(x + [Space] + y, atStart)
  {
    if x == [] {
      assert ([Space, Space] + y)[1..] == [Space] + y;
      assert ([Space] + y)[1..] == y;
      assert x + [Space, Space] + y == [Space, Space] + y;
      assert x + [Space] + y == [Space] + y;
    } else {
      assert (x + [Space, Space] + y)[1..] == x[1..] + [Space, Space] + y;
      assert (x + [Space] + y)[1..] == x[1..] + [Space] + y;
      DoubleSpaceIgnored(x[1..], y, x[0] == Space);
      DoubleSpaceIgnored(x[1..], y, false);
    }
  }

  /** Hence the initials of a name with a doubled space are those with a single one. */
  lemma DoubleSpaceInitials(x: string, y: string)
    ensures Initials(x + [Space, Space] + y) == Initials(x + [Space] + y)
  {
    InitialsAreWordStarts(x + [Space, Space] + y);
    InitialsAreWordStarts(x + [Space] + y);
    DoubleSpaceIgnored(x, y, true);
  }

  /** A word without spaces contributes its first character (at a word start)
      and nothing else; the scan then continues inside a word. */
  lemma {:induction false} WordStartsWord(w: string, t: string, atStart: bool)
    requires w != [] && Space !in w
    ensures WordStarts(w + t, atStart) == (if atStart then [w[0]] else []) + WordStarts(t, false)
  {
    assert (w + t)[0] == w[0];
    assert (w + t)[1..] == w[1..] + t;
    if |w| > 1 {
      WordStartsWord(w[1..], t, false);
    } else {
      assert w[1..] + t == t;
    }
  }

  /** A first and a last name separated by one space give two initials. */
  lemma TwoWordInitials(first: string, last: string)
    requires first != [] && Space !in first
    requires last != [] && Space !in last
    ensures Initials(first + [Space] + last) == [first[0], last[0]]
  {
    InitialsAreWordStarts(first + [Space] + last);
    assert first + [Space] + last == first + ([Space] + last);
    WordStartsWord(first, [Space] + last, true);
    assert ([Space] + last)[1..] == last;
    WordStartsWord(last, [], true);
    assert last + [] == last;
  }

  /** The three authors on the page, in order, and the initials their cards show. */
  const Authors: seq<string> := ["Sarah Mitchell", "Marcus Rodriguez", "Emily Chen"]
  const AuthorInitials: seq<string> := ["SM", "MR", "EC"]

  /** Each listed author's card shows the first letters of the two names. */
  lemma ListedAuthors(k: nat)
    requires k < |Authors|
    ensures Initials(Authors[k]) == AuthorInitials[k]
  {
    if k == 0 {
      TwoWordInitials("Sarah", "Mitchell");
      assert "Sarah" + [Space] + "Mitchell" == Authors[0];
    } else if k == 1 {
      TwoWordInitials("Marcus", "Rodriguez");
      assert "Marcus" + [Space] + "Rodriguez" == Authors[1];
    } else {
      TwoWordInitials("Emily", "Chen");
      assert "Emily" + [Space] + "Chen" == Authors[2];
    }
  }
}
