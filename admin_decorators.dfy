/** `register_view` of `server/src/admin/decorators.py`: a class decorator
    that files a view class under its name in a registry dictionary, unless
    the name is taken. */
module AdminDecorators {

  /** A view class, known by its `__name__`. */
  datatype ViewClass = ViewClass(name: string, id: nat)

  /** The group dictionary after registering `cls`. */
  function Registered(group: map<string, ViewClass>, cls: ViewClass): map<string, ViewClass> {
    if cls.name in group then group else group[cls.name := cls]
  }

  /** A free name is filled with the class; a taken name keeps its first
      class; no other key changes and the group grows by at most one. */
  lemma RegisteredFirstWins(group: map<string, ViewClass>, cls: ViewClass)
    ensures cls.name in Registered(group, cls)
    ensures cls.name !in group ==> Registered(group, cls)[cls.name] == cls
    ensures cls.name in group ==> Registered(group, cls) == group
    ensures forall k :: k != cls.name ==>
              (k in Registered(group, cls) <==> k in group) &&
              (k in group ==> Registered(group, cls)[k] == group[k])
    ensures |Registered(group, cls)| <= |group| + 1
  {
  }

  /** Registering the same class twice is registering it once; registering
      a second class of the same name changes nothing. */
  lemma RegisteredIdempotent(group: map<string, ViewClass>, cls: ViewClass, other: ViewClass)
    ensures Registered(Registered(group, cls), cls) == Registered(group, cls)
    ensures other.name == cls.name ==> Registered(Registered(group, cls), other) == Registered(group, cls)
  {
  }

  /** The `group` dictionary the decorator closes over. */
  class Group {
    var views: map<string, ViewClass>

    constructor (views: map<string, ViewClass>)
      ensures this.views == views
    {
      this.views := views;
    }

    /** `wrapper(cls)`: inserts `cls` if its name is absent and hands the
        class itself back. */
    method Wrapper(cls: ViewClass) returns (r: ViewClass)
      modifies this
      ensures r == cls
      ensures views == Registered(old(views), cls)
    {
      if cls.name !in views {
        views := views[cls.name := cls];
      }
      r := cls;
    }
  }
}
