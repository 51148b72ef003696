/** `Constants.ALL` of `server/src/commons/helpers.py`: the public,
    non-callable class attributes of a constants class, in definition order. */
module Helpers {
  import opened Py

  /** One entry of a class `__dict__`, in insertion order. */
  datatype Attr = Attr(name: string, value: PyObj)

  /** `i[:1] != '_'` */
  predicate IsPublic(name: string) {
    |name| == 0 || name[0] != '_'
  }

  predicate Contributes(a: Attr) {
    IsPublic(a.name) && !a.value.Callable()
  }

  /** The list comprehension behind `ALL`. */
  function All(attrs: seq<Attr>): (r: seq<PyObj>)
    ensures |r| <= |attrs|
    decreases |attrs|
  {
    if attrs == [] then []
    else (if Contributes(attrs[0]) then [attrs[0].value] else []) + All(attrs[1..])
  }

  /** A value is in `ALL` exactly when some public, non-callable attribute
      holds it; so underscore names and callables never contribute. */
  lemma {:induction false} AllMembership(attrs: seq<Attr>, v: PyObj)
    ensures v in All(attrs) <==> exists i :: 0 <= i < |attrs| && Contributes(attrs[i]) && attrs[i].value == v
    decreases |attrs|
  {
    if attrs != [] {
      AllMembership(attrs[1..], v);
      if v in All(attrs[1..]) {
        var i :| 0 <= i < |attrs[1..]| && Contributes(attrs[1..][i]) && attrs[1..][i].value == v;
        assert Contributes(attrs[i + 1]) && attrs[i + 1].value == v;
      }
      if exists i :: 0 <= i < |attrs| && Contributes(attrs[i]) && attrs[i].value == v {
        var i :| 0 <= i < |attrs| && Contributes(attrs[i]) && attrs[i].value == v;
        if i > 0 {
          assert Contributes(attrs[1..][i - 1]) && attrs[1..][i - 1].value == v;
        }
      }
    }
  }

  /** `ALL` keeps the class dictionary's order: listing two blocks of
      attributes one after the other lists their values in the same order. */
  lemma {:induction false} AllKeepsOrder(xs: seq<Attr>, ys: seq<Attr>)
    ensures All(xs + ys) == All(xs) + All(ys)
    decreases |xs|
  {
    if xs == [] {
      assert xs + ys == ys;
    } else {
      var head := if Contributes(xs[0]) then [xs[0].value] else [];
      assert (xs + ys)[0] == xs[0] && (xs + ys)[1..] == xs[1..] + ys;
      assert All(xs + ys) == head + All(xs[1..] + ys);
      AllKeepsOrder(xs[1..], ys);
      assert All(xs) == head + All(xs[1..]);
    }
  }

  /** The class dictionary of `Status`: the module name, the docstring, then
      the two statuses. */
  const StatusDict: seq<Attr> := [
    Attr("__module__", Str("api.constants")),
    Attr("__doc__", Str("Synctool pubslic API response statuses.")),
    Attr("OK", Str("ok")),
    Attr("ERROR", Str("error"))
  ]

  lemma StatusAll()
    ensures All(StatusDict) == [Str("ok"), Str("error")]
  {
  }
}
