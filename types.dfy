/** The editor's data model: tools, points, text alignment and annotation records.
    JavaScript numbers are exact reals; optional record fields are Options. */
module Types {

  datatype Option<+T> = None | Some(value: T) {
    function GetOr(default: T): T {
      match this
      case Some(v) => v
      case None => default
    }
  }

  newtype byte = x: int | 0 <= x < 256

  /** An uploaded file: its name, its bytes and its size in bytes. */
  datatype PdfFile = PdfFile(name: string, data: seq<byte>, size: nat)

  /** The seven drawing tools; every annotation is tagged with one of them. */
  datatype EditorTool = Pointer | Text | Highlight | Draw | Line | Square | Circle

  datatype Point = Point(x: real, y: real)

  datatype TextAlignment = Left | Center | Right

  /** An annotation record. The source's `type` field is called `kind` here. */
  datatype Annotation = Annotation(
    id: string,
    kind: EditorTool,
    x: real,
    y: real,
    width: Option<real>,
    height: Option<real>,
    content: Option<string>,
    pageIndex: int,
    color: string,
    thickness: real,
    fontSize: Option<real>,
    fontFamily: Option<string>,
    alignment: Option<TextAlignment>,
    points: Option<seq<Point>>)

  /** JavaScript `v || d` for an optional number: `d` when `v` is absent or zero. */
  function OrNum(v: Option<real>, d: real): (r: real)
    ensures r == d || (v == Some(r) && r != 0.0)
    ensures v.Some? && v.value != 0.0 ==> r == v.value
  {
    if v.Some? && v.value != 0.0 then v.value else d
  }

  /** JavaScript truthiness of an optional string: present and non-empty. */
  predicate Truthy(s: Option<string>) {
    s.Some? && s.value != ""
  }

  function Abs(r: real): (a: real)
    ensures a >= 0.0 && (a == r || a == -r)
  {
    if r < 0.0 then -r else r
  }

  /** `f` applied to each element in turn, the results joined in order. */
  function FlatMap<T, U>(f: T -> seq<U>, xs: seq<T>): seq<U>
    decreases |xs|
  {
    if xs == [] then [] else FlatMap(f, xs[..|xs| - 1]) + f(xs[|xs| - 1])
  }

  lemma {:induction false} FlatMapAppend<T, U>(f: T -> seq<U>, xs: seq<T>, ys: seq<T>)
    ensures FlatMap(f, xs + ys) == FlatMap(f, xs) + FlatMap(f, ys)
    decreases |ys|
  {
    if ys == [] {
      assert xs + ys == xs;
    } else {
      var n := |ys| - 1;
      var zs := xs + ys;
      assert zs[..|zs| - 1] == xs + ys[..n];
      assert zs[|zs| - 1] == ys[n];
      FlatMapAppend(f, xs, ys[..n]);
    }
  }

  /** Element `i`'s results stand between those of the elements before and after it. */
  lemma FlatMapSplit<T, U>(f: T -> seq<U>, xs: seq<T>, i: nat)
    requires i < |xs|
    ensures FlatMap(f, xs) == FlatMap(f, xs[..i]) + f(xs[i]) + FlatMap(f, xs[i + 1..])
  {
    var pre, post := xs[..i], xs[i + 1..];
    assert xs == (pre + [xs[i]]) + post;
    FlatMapAppend(f, pre + [xs[i]], post);
    FlatMapAppend(f, pre, [xs[i]]);
    FlatMapSingle(f, xs[i]);
  }

  /** An element with no results can be dropped from anywhere in the list. */
  lemma FlatMapSkip<T, U>(f: T -> seq<U>, xs: seq<T>, a: T, ys: seq<T>)
    requires f(a) == []
    ensures FlatMap(f, xs + [a] + ys) == FlatMap(f, xs + ys)
  {
    FlatMapAppend(f, xs + [a], ys);
    FlatMapAppend(f, xs, [a]);
    FlatMapAppend(f, xs, ys);
    FlatMapSingle(f, a);
  }

  lemma FlatMapSingle<T, U>(f: T -> seq<U>, x: T)
    ensures FlatMap(f, [x]) == f(x)
  {
    assert [x][..0] == [];
  }

  /** A property every result of every element has, every result of the whole has. */
  lemma {:induction false} FlatMapAll<T, U>(f: T -> seq<U>, xs: seq<T>, P: U -> bool)
    requires forall x, u :: x in xs && u in f(x) ==> P(u)
    ensures forall u :: u in FlatMap(f, xs) ==> P(u)
    decreases |xs|
  {
    if xs != [] {
      var n := |xs| - 1;
      assert forall x :: x in xs[..n] ==> x in xs;
      FlatMapAll(f, xs[..n], P);
    }
  }

  /** When each element gives at most one result, the whole has at most one per element. */
  lemma {:induction false} FlatMapAtMostOne<T, U>(f: T -> seq<U>, xs: seq<T>)
    requires forall x :: x in xs ==> |f(x)| <= 1
    ensures |FlatMap(f, xs)| <= |xs|
    decreases |xs|
  {
    if xs != [] {
      var n := |xs| - 1;
      assert forall x :: x in xs[..n] ==> x in xs;
      FlatMapAtMostOne(f, xs[..n]);
    }
  }
}
