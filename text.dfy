/** Text helpers shared by the generators: joining with a separator (Rust's
    `[String]::join`) and cutting at a delimiter (Rust's `str::split` with a
    `char` pattern), with the lemmas that make each the inverse of the other. */
module Text {

  /** The two texts a generator produces for one declaration, or that a
      traversal produces for a list of items: the C header text and the Rust
      wrapper text. */
  datatype Binding = Binding(c: string, rust: string)

  /** Regrouping a concatenation; stated once so that proofs about long
      generated texts need not rediscover it. */
  lemma AppendAssoc(a: string, b: string, c: string)
    ensures (a + b) + c == a + (b + c)
  {
  }

  /** `parts` with `sep` between consecutive parts. */
  function Join(parts: seq<string>, sep: string): string
  {
    if |parts| == 0 then ""
    else if |parts| == 1 then parts[0]
    else parts[0] + sep + Join(parts[1..], sep)
  }

  /** `s` cut at every occurrence of `d`; there is always at least one part,
      and two adjacent delimiters give an empty part between them. */
  function Split(s: string, d: char): (parts: seq<string>)
    ensures |parts| >= 1
  {
    if |s| == 0 then [""]
    else
      var rest := Split(s[1..], d);
      if s[0] == d then [""] + rest else [[s[0]] + rest[0]] + rest[1..]
  }

  /** `s` with one leading `pad` removed, when it has one. */
  function DropPrefix(s: string, pad: string): string
  {
    if |pad| <= |s| && s[..|pad|] == pad then s[|pad|..] else s
  }

  predicate IsIdentChar(c: char)
  {
    ('a' <= c <= 'z') || ('A' <= c <= 'Z') || ('0' <= c <= '9') || c == '_'
  }

  /** A Rust identifier as its text: letters, digits and underscores. */
  predicate IsIdentifier(s: string)
  {
    |s| > 0 && forall i :: 0 <= i < |s| ==> IsIdentChar(s[i])
  }

  lemma IdentifierHasNo(s: string, c: char)
    requires IsIdentifier(s)
    requires !IsIdentChar(c)
    ensures c !in s
  {
  }

  lemma {:induction false} SplitNoDelimiter(s: string, d: char)
    requires d !in s
    ensures Split(s, d) == [s]
  {
    if |s| > 0 {
      SplitNoDelimiter(s[1..], d);
      assert [s[0]] + s[1..] == s;
    }
  }

  /** Cutting at one occurrence of the delimiter splits the parts in two. */
  lemma {:induction false} SplitAtDelimiter(x: string, d: char, y: string)
    ensures Split(x + [d] + y, d) == Split(x, d) + Split(y, d)
  {
    if |x| == 0 {
      assert x + [d] + y == [d] + y;
      assert ([d] + y)[1..] == y;
    } else {
      var s := x + [d] + y;
      assert s[0] == x[0];
      assert s[1..] == x[1..] + [d] + y;
      SplitAtDelimiter(x[1..], d, y);
    }
  }

  lemma SplitTwo(x: string, d: char, y: string)
    requires d !in x && d !in y
    ensures Split(x + [d] + y, d) == [x, y]
  {
    SplitAtDelimiter(x, d, y);
    SplitNoDelimiter(x, d);
    SplitNoDelimiter(y, d);
  }

  /** Joining the parts of a cut restores the text. */
  lemma {:induction false} JoinSplit(s: string, d: char)
    ensures Join(Split(s, d), [d]) == s
  {
    if |s| > 0 {
      JoinSplit(s[1..], d);
      var rest := Split(s[1..], d);
      if s[0] == d {
        assert Split(s, d) == [""] + rest;
        assert ([""] + rest)[1..] == rest;
        assert Join([""] + rest, [d]) == "" + [d] + Join(rest, [d]);
        assert [s[0]] + s[1..] == s;
      } else {
        var parts := [[s[0]] + rest[0]] + rest[1..];
        assert Split(s, d) == parts;
        if |rest| == 1 {
          assert Join(rest, [d]) == rest[0];
          assert [s[0]] + s[1..] == s;
        } else {
          assert parts[1..] == rest[1..];
          assert Join(rest, [d]) == rest[0] + [d] + Join(rest[1..], [d]);
          assert Join(parts, [d]) == [s[0]] + rest[0] + [d] + Join(rest[1..], [d]);
          assert [s[0]] + s[1..] == s;
        }
      }
    }
  }

  /** `parts` with `pad` put in front of every part but the first. */
  function PadTail(parts: seq<string>, pad: string): seq<string>
    requires |parts| >= 1
  {
    [parts[0]] + seq(|parts| - 1, k requires 0 <= k < |parts| - 1 => pad + parts[k + 1])
  }

  /** `parts` with one leading `pad` removed from every part but the first. */
  function TrimTail(parts: seq<string>, pad: string): seq<string>
    requires |parts| >= 1
  {
    [parts[0]] + seq(|parts| - 1, k requires 0 <= k < |parts| - 1 => DropPrefix(parts[k + 1], pad))
  }

  /** Cutting a join restores the parts, when no part holds the delimiter;
      each part after the first keeps the separator's padding. */
  lemma {:induction false} SplitJoin(parts: seq<string>, d: char, pad: string)
    requires |parts| >= 1
    requires d !in pad
    requires forall k :: 0 <= k < |parts| ==> d !in parts[k]
    ensures Split(Join(parts, [d] + pad), d) == PadTail(parts, pad)
  {
    if |parts| == 1 {
      SplitNoDelimiter(parts[0], d);
    } else {
      var rest := parts[1..];
      SplitJoin(rest, d, pad);
      var tail := Join(rest, [d] + pad);
      assert Join(parts, [d] + pad) == parts[0] + [d] + (pad + tail);
      SplitAtDelimiter(parts[0], d, pad + tail);
      SplitNoDelimiter(parts[0], d);
      var cut := Split(tail, d);
      PadFirstPart(pad, tail, d);
      var got := [parts[0]] + ([pad + cut[0]] + cut[1..]);
      assert Split(Join(parts, [d] + pad), d) == got;
      PadTailStep(parts, pad, cut);
    }
  }

  lemma PadTailStep(parts: seq<string>, pad: string, cut: seq<string>)
    requires |parts| >= 2
    requires cut == PadTail(parts[1..], pad)
    ensures [parts[0]] + ([pad + cut[0]] + cut[1..]) == PadTail(parts, pad)
  {
    var got := [parts[0]] + ([pad + cut[0]] + cut[1..]);
    forall k | 1 <= k < |parts|
      ensures got[k] == pad + parts[k]
    {
      if k > 1 {
        assert got[k] == cut[k - 1];
      }
    }
  }

  /** Cutting a join at its one-character separator restores the parts. */
  lemma SplitJoinExact(parts: seq<string>, d: char)
    requires |parts| >= 1
    requires forall k :: 0 <= k < |parts| ==> d !in parts[k]
    ensures Split(Join(parts, [d]), d) == parts
  {
    SplitJoin(parts, d, "");
    assert [d] + "" == [d];
    PadNothing(parts);
  }

  /** Padding with nothing changes nothing. */
  lemma PadNothing(parts: seq<string>)
    requires |parts| >= 1
    ensures PadTail(parts, "") == parts
  {
    var cut := PadTail(parts, "");
    assert |cut| == |parts|;
    forall k | 0 <= k < |parts|
      ensures cut[k] == parts[k]
    {
      if k > 0 {
        assert cut[k] == "" + parts[k];
      }
    }
  }

  lemma JoinThree(a: string, b: string, c: string, sep: string)
    ensures Join([a, b, c], sep) == a + sep + b + sep + c
  {
    assert [a, b, c][1..] == [b, c];
    assert [b, c][1..] == [c];
    assert Join([b, c], sep) == b + sep + c;
    AppendAssoc(a + sep, b + sep, c);
    AppendAssoc(a + sep, b, sep);
  }

  /** Joining a concatenation: the two joins with one separator between. */
  lemma {:induction false} JoinAppend(a: seq<string>, b: seq<string>, sep: string)
    requires |a| > 0 && |b| > 0
    ensures Join(a + b, sep) == Join(a, sep) + sep + Join(b, sep)
  {
    if |a| == 1 {
      assert (a + b)[1..] == b;
    } else {
      assert (a + b)[1..] == a[1..] + b;
      JoinAppend(a[1..], b, sep);
      AppendAssoc(a[0] + sep, Join(a[1..], sep), sep + Join(b, sep));
    }
  }

  /** A prefix without the delimiter sticks to the first part. */
  lemma {:induction false} PadFirstPart(pad: string, s: string, d: char)
    requires d !in pad
    ensures Split(pad + s, d) == [pad + Split(s, d)[0]] + Split(s, d)[1..]
  {
    if |pad| > 0 {
      PadFirstPart(pad[1..], s, d);
      assert (pad + s)[0] == pad[0];
      assert (pad + s)[1..] == pad[1..] + s;
      assert [pad[0]] + (pad[1..] + Split(s, d)[0]) == pad + Split(s, d)[0];
    } else {
      assert pad + s == s;
      assert pad + Split(s, d)[0] == Split(s, d)[0];
      assert Split(s, d) == [Split(s, d)[0]] + Split(s, d)[1..];
    }
  }

  /** A character that neither the separator nor any part holds is not in
      their join. */
  lemma {:induction false} JoinExcludes(parts: seq<string>, sep: string, c: char)
    requires c !in sep
    requires forall k :: 0 <= k < |parts| ==> c !in parts[k]
    ensures c !in Join(parts, sep)
  {
    if |parts| > 1 {
      JoinExcludes(parts[1..], sep, c);
    }
  }

  /** A comma-separated list as the generator writes one (`a, b, c`), read
      back into its items; the empty text is the empty list. */
  function ParseList(list: string): seq<string>
  {
    if list == "" then [] else TrimTail(Split(list, ','), " ")
  }

  lemma JoinStartsWithFirst(parts: seq<string>, sep: string)
    requires |parts| > 0
    ensures |Join(parts, sep)| >= |parts[0]|
  {
    if |parts| > 1 {
      assert Join(parts, sep) == parts[0] + sep + Join(parts[1..], sep);
    }
  }

  /** Dropping the padding that `SplitJoin` leaves on every part but the first. */
  lemma DropPadding(parts: seq<string>)
    requires |parts| >= 1
    ensures TrimTail(PadTail(parts, " "), " ") == parts
  {
    var read := TrimTail(PadTail(parts, " "), " ");
    forall k | 1 <= k < |parts|
      ensures read[k] == parts[k]
    {
      assert (" " + parts[k])[..1] == " ";
      assert (" " + parts[k])[1..] == parts[k];
    }
  }

  /** Reading back a list written with `, ` gives its items, when each item is
      non-empty and holds no comma. */
  lemma ParseListJoin(parts: seq<string>)
    requires forall k :: 0 <= k < |parts| ==> parts[k] != "" && ',' !in parts[k]
    ensures ParseList(Join(parts, ", ")) == parts
  {
    if |parts| > 0 {
      assert ", " == [','] + " ";
      SplitJoin(parts, ',', " ");
      JoinStartsWithFirst(parts, ", ");
      DropPadding(parts);
    }
  }
}
