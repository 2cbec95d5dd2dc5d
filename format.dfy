/**
 * String helpers of include/util/format.h: `join`, `colored`, `apply_tag`
 * and `tagged`. Items are already strings (`to_str` of a string is the
 * string itself); the `colored` overload that prints a double with two
 * decimals is not part of this model.
 */
module Format {

  /** The values of the plain C++ enum `HTMLTags`. Being a plain enum, any
      integer can reach `apply_tag`, whose `default` branch handles the rest. */
  const BOLD: int := 0
  const UL: int := 1
  const IT: int := 2
  const EM: int := 3

  /** The two overloads of `apply_tag`: an HTML tag, or a colour name. */
  datatype Tag = Html(code: int) | Color(name: string)

  /** Opening and closing text a tag puts around a string ("" for an unknown code). */
  function Open(t: Tag): string
  {
    match t
    case Color(c) => "<span style='color: var(--color-" + c + ");'>"
    case Html(code) =>
      if code == BOLD then "<b>"
      else if code == UL then "<u>"
      else if code == IT then "<i>"
      else if code == EM then "<em>"
      else ""
  }

  function Close(t: Tag): string
  {
    match t
    case Color(_) => "</span>"
    case Html(code) =>
      if code == BOLD then "</b>"
      else if code == UL then "</u>"
      else if code == IT then "</i>"
      else if code == EM then "</em>"
      else ""
  }

  predicate Known(t: Tag)
  {
    t.Color? || 0 <= t.code <= 3
  }

  /** `colored(color, arg)`: the argument inside a span coloured by a CSS variable. */
  function Colored(color: string, arg: string): (r: string)
    ensures |r| == |arg| + |color| + 43
    ensures r[..32] == "<span style='color: var(--color-"
    ensures r[32..32 + |color|] == color
    ensures r[|r| - 7..] == "</span>"
    ensures r[32 + |color| + 4..|r| - 7] == arg
  {
    "<span style='color: var(--color-" + color + ");'>" + arg + "</span>"
  }

  /** `apply_tag`: wraps the string in the tag; an unknown HTML code leaves it unchanged. */
  function ApplyTag(s: string, t: Tag): (r: string)
    ensures Known(t) <==> r != s
    ensures t.Color? ==> r == Colored(t.name, s)
    ensures r == Open(t) + s + Close(t)
  {
    match t
    case Color(c) => Colored(c, s)
    case Html(code) =>
      if code == BOLD then "<b>" + s + "</b>"
      else if code == UL then "<u>" + s + "</u>"
      else if code == IT then "<i>" + s + "</i>"
      else if code == EM then "<em>" + s + "</em>"
      else s
  }

  /** Removes the tag `t` from the outside of `r`, when it is there. */
  function StripTag(r: string, t: Tag): (s: string)
  {
    var o, c := Open(t), Close(t);
    if |o| + |c| <= |r| && r[..|o|] == o && r[|r| - |c|..] == c then r[|o|..|r| - |c|] else r
  }

  lemma StripApplyTag(s: string, t: Tag)
    ensures StripTag(ApplyTag(s, t), t) == s
  {
    var r := ApplyTag(s, t);
    var o, c := Open(t), Close(t);
    assert r[..|o|] == o;
    assert r[|r| - |c|..] == c;
    assert r[|o|..|r| - |c|] == s;
  }

  /** `tagged(str, tags...)`: the fold expression applies the tags left to right. */
  function Tagged(s: string, tags: seq<Tag>): (r: string)
    decreases |tags|
  {
    if tags == [] then s else Tagged(ApplyTag(s, tags[0]), tags[1..])
  }

  /** The last tag ends up outermost. */
  lemma {:induction false} TaggedLastOutermost(s: string, tags: seq<Tag>, t: Tag)
    ensures Tagged(s, tags + [t]) == ApplyTag(Tagged(s, tags), t)
    decreases |tags|
  {
    if tags == [] {
      assert [] + [t] == [t];
    } else {
      assert (tags + [t])[1..] == tags[1..] + [t];
      TaggedLastOutermost(ApplyTag(s, tags[0]), tags[1..], t);
    }
  }

  /** Stripping the tags outermost first recovers the string. */
  function StripAll(r: string, tags: seq<Tag>): string
    decreases |tags|
  {
    if tags == [] then r else StripAll(StripTag(r, tags[|tags| - 1]), tags[..|tags| - 1])
  }

  lemma {:induction false} TaggedRoundTrip(s: string, tags: seq<Tag>)
    ensures StripAll(Tagged(s, tags), tags) == s
    decreases |tags|
  {
    if tags != [] {
      var init, last := tags[..|tags| - 1], tags[|tags| - 1];
      assert tags == init + [last];
      TaggedLastOutermost(s, init, last);
      StripApplyTag(Tagged(s, init), last);
      TaggedRoundTrip(s, init);
    }
  }

  /** What `join` computes: the items with `sep` between neighbours. */
  function JoinSpec(items: seq<string>, sep: string): string
    decreases |items|
  {
    if |items| == 0 then ""
    else if |items| == 1 then items[0]
    else JoinSpec(items[..|items| - 1], sep) + sep + items[|items| - 1]
  }

  function TotalLength(items: seq<string>): nat
    decreases |items|
  {
    if items == [] then 0 else TotalLength(items[..|items| - 1]) + |items[|items| - 1]|
  }

  /** `join(start, end, sep)`: appends each item, then a separator unless it was the last. */
  method Join(items: seq<string>, sep: string) returns (result: string)
    ensures result == JoinSpec(items, sep)
    ensures items == [] ==> result == ""
  {
    result := "";
    var i := 0;
    while i < |items|
      invariant 0 <= i <= |items|
      invariant result == if i == 0 then "" else JoinSpec(items[..i], sep) + (if i < |items| then sep else "")
    {
      assert items[..i + 1][..i] == items[..i];
      result := result + items[i];
      if i != |items| - 1 {
        result := result + sep;
      }
      i := i + 1;
    }
    assert items[..|items|] == items;
  }

  /** n items give n - 1 separators and none after the last item. */
  lemma {:induction false} JoinLength(items: seq<string>, sep: string)
    requires items != []
    ensures |JoinSpec(items, sep)| == TotalLength(items) + (|items| - 1) * |sep|
    decreases |items|
  {
    if |items| > 1 {
      JoinLength(items[..|items| - 1], sep);
    }
  }

  /** Joining a concatenation puts exactly one separator at the seam. */
  lemma {:induction false} JoinAppend(a: seq<string>, b: seq<string>, sep: string)
    requires a != [] && b != []
    ensures JoinSpec(a + b, sep) == JoinSpec(a, sep) + sep + JoinSpec(b, sep)
    decreases |b|
  {
    if |b| == 1 {
      assert (a + b)[..|a + b| - 1] == a;
    } else {
      var b' := b[..|b| - 1];
      assert (a + b)[..|a + b| - 1] == a + b';
      JoinAppend(a, b', sep);
    }
  }
}
