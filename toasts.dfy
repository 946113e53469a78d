/** The toast queue shared by every component: toasts are appended when
    shown and removed by id, the first one carrying that id, when their
    dismissal timer fires. */
module Toasts {

  import opened Optional

  /** `{ id, message, type }`; the id is the time the toast was shown. */
  datatype Toast = Toast(id: int, message: string, kind: string)

  /** The type of a toast shown without one. */
  const DefaultKind: string := "info"

  /** How long a toast stays before its dismissal timer removes it, in ms. */
  const DismissAfter: int := 4000

  /** The toast `showToast` appends: the type defaults to "info". */
  function NewToast(now: int, message: string, kind: Option<string>): (t: Toast)
    ensures t.id == now && t.message == message
    ensures kind.Some? ==> t.kind == kind.value
    ensures kind.None? ==> t.kind == DefaultKind
  {
    Toast(now, message, if kind.Some? then kind.value else DefaultKind)
  }

  /** The position of the first toast with the given id, if any. */
  function FirstIndex(s: seq<Toast>, id: int): (r: Option<nat>)
    ensures r.Some? ==> r.value < |s| && s[r.value].id == id
    ensures r.Some? ==> forall j :: 0 <= j < r.value ==> s[j].id != id
    ensures r.None? ==> forall j :: 0 <= j < |s| ==> s[j].id != id
  {
    if s == [] then None
    else if s[0].id == id then Some(0)
    else match FirstIndex(s[1..], id)
      case Some(k) => Some(k + 1)
      case None => None
  }

  /** The list without its first toast with the given id. */
  function RemoveFirst(s: seq<Toast>, id: int): seq<Toast> {
    if s == [] then []
    else if s[0].id == id then s[1..]
    else [s[0]] + RemoveFirst(s[1..], id)
  }

  /** Removing is a splice at the first matching position, and nothing at
      all when no toast has the id: every other toast stays, in order. */
  lemma {:induction false} RemoveFirstSplices(s: seq<Toast>, id: int)
    ensures FirstIndex(s, id).None? ==> RemoveFirst(s, id) == s
    ensures FirstIndex(s, id).Some? ==>
      var i := FirstIndex(s, id).value;
      RemoveFirst(s, id) == s[..i] + s[i + 1..]
  {
    if s != [] && s[0].id != id {
      var rest := s[1..];
      RemoveFirstSplices(rest, id);
      match FirstIndex(rest, id)
      case None =>
      case Some(k) =>
        assert [s[0]] + rest[..k] == s[..k + 1];
        assert rest[k + 1..] == s[k + 2..];
    }
  }

  /** Exactly one toast goes when one carries the id, none otherwise. */
  lemma RemoveFirstLength(s: seq<Toast>, id: int)
    ensures (exists j :: 0 <= j < |s| && s[j].id == id) ==> |RemoveFirst(s, id)| == |s| - 1
    ensures (forall j :: 0 <= j < |s| ==> s[j].id != id) ==> RemoveFirst(s, id) == s
  {
    RemoveFirstSplices(s, id);
  }

  /** What is removed is one toast with the id, and nothing else: the
      result and that toast together are the original list. */
  lemma RemoveFirstRemovesOne(s: seq<Toast>, id: int)
    requires FirstIndex(s, id).Some?
    ensures multiset(RemoveFirst(s, id)) + multiset{s[FirstIndex(s, id).value]} == multiset(s)
  {
    var i := FirstIndex(s, id).value;
    var before, after := s[..i], s[i + 1..];
    RemoveFirstSplices(s, id);
    assert RemoveFirst(s, id) == before + after;
    assert s == before + [s[i]] + after;
    assert multiset(s) == multiset(before) + multiset{s[i]} + multiset(after);
  }

  /** Of two toasts sharing an id only the earlier goes; the later one
      moves up by one place. */
  lemma RemoveFirstKeepsLaterTwin(s: seq<Toast>, id: int, i: nat, j: nat)
    requires i < j < |s| && s[i].id == id && s[j].id == id
    ensures |RemoveFirst(s, id)| == |s| - 1
    ensures RemoveFirst(s, id)[j - 1] == s[j]
  {
    RemoveFirstSplices(s, id);
    var k := FirstIndex(s, id).value;
    assert k <= i;
  }

  /** The toast list: the module-level array every caller of the
      composable shares. */
  class ToastList {
    var toasts: seq<Toast>

    constructor()
      ensures toasts == []
    {
      toasts := [];
    }

    /** `showToast`: the new toast goes last; its dismissal timer is the
        later call `RemoveToast(now)`. */
    method ShowToast(now: int, message: string, kind: Option<string>)
      modifies this
      ensures toasts == old(toasts) + [NewToast(now, message, kind)]
    {
      toasts := toasts + [NewToast(now, message, kind)];
    }

    /** `findIndex(t => t.id === id)`: the first position holding the id,
        or -1. */
    method FindIndex(id: int) returns (index: int)
      ensures -1 <= index < |toasts|
      ensures index == -1 <==> FirstIndex(toasts, id).None?
      ensures index >= 0 ==> FirstIndex(toasts, id) == Some(index as nat)
    {
      var k := 0;
      while k < |toasts|
        invariant 0 <= k <= |toasts|
        invariant forall j :: 0 <= j < k ==> toasts[j].id != id
      {
        if toasts[k].id == id {
          FirstIndexIsFirst(toasts, id, k);
          return k;
        }
        k := k + 1;
      }
      return -1;
    }

    /** `removeToast`: the first toast with the id is spliced out; nothing
        happens when there is none. */
    method RemoveToast(id: int)
      modifies this
      ensures toasts == RemoveFirst(old(toasts), id)
    {
      var index := FindIndex(id);
      RemoveFirstSplices(toasts, id);
      if index != -1 {
        toasts := toasts[..index] + toasts[index + 1..];
      }
    }
  }

  /** A position holding the id with none before it is the first index. */
  lemma FirstIndexIsFirst(s: seq<Toast>, id: int, k: nat)
    requires k < |s| && s[k].id == id
    requires forall j :: 0 <= j < k ==> s[j].id != id
    ensures FirstIndex(s, id) == Some(k)
  {
  }
}
