/**
 * Query-string edits. A query is a list of name and value pairs in order; setting and deleting are
 * those of `URLSearchParams`, section 6.2 of the WHATWG URL Standard.
 */
module Query {
  type Pair = (string, string)

  /** The pairs named none of `names`, in order. */
  function Without(list: seq<Pair>, names: set<string>): (r: seq<Pair>)
    ensures forall p :: p in r <==> p in list && p.0 !in names
  {
    if list == [] then []
    else
      assert list == [list[0]] + list[1..];
      (if list[0].0 in names then [] else [list[0]]) + Without(list[1..], names)
  }

  /** Every value of one name, in order. */
  function Values(list: seq<Pair>, name: string): (r: seq<string>)
    ensures r == [] <==> forall p :: p in list ==> p.0 != name
  {
    if list == [] then []
    else
      assert list == [list[0]] + list[1..];
      (if list[0].0 == name then [list[0].1] else []) + Values(list[1..], name)
  }

  /** The first pair of that name takes the value and the others go; with none, one is appended. */
  function SetParam(list: seq<Pair>, name: string, value: string): seq<Pair> {
    if list == [] then [(name, value)]
    else if list[0].0 == name then [(name, value)] + Without(list[1..], {name})
    else [list[0]] + SetParam(list[1..], name, value)
  }

  function DeleteParam(list: seq<Pair>, name: string): seq<Pair> {
    Without(list, {name})
  }

  // -------------------------------------------------------------- their laws

  lemma {:induction false} WithoutTwice(list: seq<Pair>, a: set<string>, b: set<string>)
    ensures Without(Without(list, a), b) == Without(list, a + b)
  {
    if list != [] {
      WithoutTwice(list[1..], a, b);
      var rest := Without(list[1..], a);
      if list[0].0 !in a {
        assert ([list[0]] + rest)[1..] == rest;
      } else {
        assert [] + rest == rest;
      }
    }
  }

  lemma {:induction false} WithoutAbsent(list: seq<Pair>, names: set<string>)
    requires forall p :: p in list ==> p.0 !in names
    ensures Without(list, names) == list
  {
    if list != [] {
      assert list[0] in list && forall p :: p in list[1..] ==> p in list;
      WithoutAbsent(list[1..], names);
    }
  }

  /** Setting a name touches no other: what is left without it is unchanged, in order. */
  lemma {:induction false} SetLeavesOthers(list: seq<Pair>, name: string, value: string, names: set<string>)
    requires name in names
    ensures Without(SetParam(list, name, value), names) == Without(list, names)
  {
    if list == [] {
      assert [(name, value)][1..] == [];
    } else if list[0].0 == name {
      var rest := Without(list[1..], {name});
      assert ([(name, value)] + rest)[1..] == rest;
      WithoutTwice(list[1..], {name}, names);
      assert {name} + names == names;
    } else {
      var rest := SetParam(list[1..], name, value);
      assert ([list[0]] + rest)[1..] == rest;
      SetLeavesOthers(list[1..], name, value, names);
    }
  }

  lemma {:induction false} ValuesWithout(list: seq<Pair>, names: set<string>, name: string)
    ensures name !in names ==> Values(Without(list, names), name) == Values(list, name)
    ensures name in names ==> Values(Without(list, names), name) == []
  {
    if list != [] {
      ValuesWithout(list[1..], names, name);
      var rest := Without(list[1..], names);
      if list[0].0 !in names {
        assert ([list[0]] + rest)[1..] == rest;
      } else {
        assert [] + rest == rest;
      }
    }
  }

  /** Values come in the order of their pairs. */
  lemma {:induction false} ValuesInOrder(before: seq<Pair>, name: string, value: string, after: seq<Pair>)
    ensures Values(before + [(name, value)] + after, name) == Values(before, name) + [value] + Values(after, name)
  {
    var list := before + [(name, value)] + after;
    if before == [] {
      assert list[0] == (name, value) && list[1..] == after;
    } else {
      assert list[0] == before[0] && list[1..] == before[1..] + [(name, value)] + after;
      ValuesInOrder(before[1..], name, value, after);
    }
  }

  lemma {:induction false} ValuesSet(list: seq<Pair>, name: string, value: string, other: string)
    ensures Values(SetParam(list, name, value), other) == if other == name then [value] else Values(list, other)
  {
    if list == [] {
      assert [(name, value)][1..] == [];
    } else if list[0].0 == name {
      var rest := Without(list[1..], {name});
      assert ([(name, value)] + rest)[1..] == rest;
      ValuesWithout(list[1..], {name}, other);
    } else {
      var rest := SetParam(list[1..], name, value);
      assert ([list[0]] + rest)[1..] == rest;
      ValuesSet(list[1..], name, value, other);
    }
  }

  // ------------------------------------------------------------ the controls

  /** What a form holds for a field, trimmed; nothing for one it does not have. */
  type Form = string -> string

  /** One field of a submit: set when it says something, taken out when it does not. */
  function SubmitField(list: seq<Pair>, field: string, form: Form): seq<Pair> {
    if form(field) != "" then SetParam(list, field, form(field)) else DeleteParam(list, field)
  }

  function SubmitFields(list: seq<Pair>, fields: seq<string>, form: Form): seq<Pair> {
    if fields == [] then list
    else SubmitField(SubmitFields(list, fields[..|fields| - 1], form), fields[|fields| - 1], form)
  }

  function Names(fields: seq<string>): set<string> {
    set f | f in fields
  }

  /** A link's changes, in order; an empty value takes the name out. */
  function Linked(list: seq<Pair>, next: seq<Pair>): seq<Pair> {
    if next == [] then list
    else
      var (key, value) := next[|next| - 1];
      var so := Linked(list, next[..|next| - 1]);
      if value != "" then SetParam(so, key, value) else DeleteParam(so, key)
  }

  function Keys(next: seq<Pair>): set<string> {
    set p | p in next :: p.0
  }

  /** A page's query parameters, edited in place the way each control edits them. */
  class QueryParams {
    var list: seq<Pair>

    constructor (list: seq<Pair>)
      ensures this.list == list
    {
      this.list := list;
    }

    method Set(name: string, value: string)
      modifies this
      ensures list == SetParam(old(list), name, value)
    {
      list := SetParam(list, name, value);
    }

    method Delete(name: string)
      modifies this
      ensures list == DeleteParam(old(list), name)
    {
      list := DeleteParam(list, name);
    }

    /** The filter form's submit. */
    method Submit(fields: seq<string>, form: Form)
      modifies this
      ensures list == DeleteParam(SubmitFields(old(list), fields, form), "page")
    {
      for i := 0 to |fields|
        invariant list == SubmitFields(old(list), fields[..i], form)
      {
        assert fields[..i + 1][..i] == fields[..i];
        if form(fields[i]) != "" {
          Set(fields[i], form(fields[i]));
        } else {
          Delete(fields[i]);
        }
      }
      assert fields[..|fields|] == fields;
      Delete("page");
    }

    /** Where "Clear filters" goes. */
    method Clear(fields: seq<string>)
      modifies this
      ensures list == Without(old(list), Names(fields) + {"page"})
    {
      WithoutAbsent(list, {});
      assert Names(fields[..0]) == {};
      for i := 0 to |fields|
        invariant list == Without(old(list), Names(fields[..i]))
      {
        assert fields[..i + 1] == fields[..i] + [fields[i]];
        assert Names(fields[..i + 1]) == Names(fields[..i]) + {fields[i]};
        WithoutTwice(old(list), Names(fields[..i]), {fields[i]});
        Delete(fields[i]);
      }
      assert fields[..|fields|] == fields;
      WithoutTwice(old(list), Names(fields), {"page"});
      Delete("page");
    }

    /** A page turn. */
    method GoTo(page: string)
      modifies this
      ensures list == SetParam(old(list), "page", page)
    {
      Set("page", page);
    }

    /** A view link: its own names, and the page number unless it gives one. */
    method LinkTo(next: seq<Pair>)
      modifies this
      ensures list == if "page" in Keys(next) then Linked(old(list), next) else DeleteParam(Linked(old(list), next), "page")
    {
      for i := 0 to |next|
        invariant list == Linked(old(list), next[..i])
      {
        assert next[..i + 1][..i] == next[..i];
        if next[i].1 != "" {
          Set(next[i].0, next[i].1);
        } else {
          Delete(next[i].0);
        }
      }
      assert next[..|next|] == next;
      if "page" !in Keys(next) {
        Delete("page");
      }
    }

    /** What a section tab carries along. */
    method Carry()
      modifies this
      ensures list == DeleteParam(old(list), "page")
    {
      Delete("page");
    }

    /** A run's ledger. */
    method Ledger(run: string)
      modifies this
      ensures list == SetParam(SetParam(old(list), "tab", "ledger"), "run", run)
    {
      Set("tab", "ledger");
      Set("run", run);
    }
  }

  // --------------------------------------------------------------- promises

  /** Everything a control can do to a query. */
  datatype Edit =
    | SubmitEdit(fields: seq<string>, form: Form)
    | ClearEdit(fields: seq<string>)
    | TurnEdit(page: string)
    | LinkEdit(next: seq<Pair>)
    | SectionEdit
    | LedgerEdit(run: string)

  function Edited(list: seq<Pair>, e: Edit): seq<Pair> {
    match e
    case SubmitEdit(fields, form) => DeleteParam(SubmitFields(list, fields, form), "page")
    case ClearEdit(fields) => Without(list, Names(fields) + {"page"})
    case TurnEdit(page) => SetParam(list, "page", page)
    case LinkEdit(next) => if "page" in Keys(next) then Linked(list, next) else DeleteParam(Linked(list, next), "page")
    case SectionEdit => DeleteParam(list, "page")
    case LedgerEdit(run) => SetParam(SetParam(list, "tab", "ledger"), "run", run)
  }

  /** The names a control owns. */
  function Owns(e: Edit): set<string> {
    match e
    case SubmitEdit(fields, _) => Names(fields) + {"page"}
    case ClearEdit(fields) => Names(fields) + {"page"}
    case TurnEdit(_) => {"page"}
    case LinkEdit(next) => Keys(next) + {"page"}
    case SectionEdit => {"page"}
    case LedgerEdit(_) => {"tab", "run"}
  }

  lemma DeleteLeavesOthers(list: seq<Pair>, name: string, names: set<string>)
    requires name in names
    ensures Without(DeleteParam(list, name), names) == Without(list, names)
  {
    WithoutTwice(list, {name}, names);
    assert {name} + names == names;
  }

  lemma {:induction false} SubmitLeavesOthers(list: seq<Pair>, fields: seq<string>, form: Form, names: set<string>)
    requires Names(fields) <= names
    ensures Without(SubmitFields(list, fields, form), names) == Without(list, names)
  {
    if fields != [] {
      var last := |fields| - 1;
      assert fields[last] in Names(fields);
      assert Names(fields[..last]) <= Names(fields);
      SubmitLeavesOthers(list, fields[..last], form, names);
      var so := SubmitFields(list, fields[..last], form);
      if form(fields[last]) != "" {
        SetLeavesOthers(so, fields[last], form(fields[last]), names);
      } else {
        DeleteLeavesOthers(so, fields[last], names);
      }
    }
  }

  lemma {:induction false} LinkLeavesOthers(list: seq<Pair>, next: seq<Pair>, names: set<string>)
    requires Keys(next) <= names
    ensures Without(Linked(list, next), names) == Without(list, names)
  {
    if next != [] {
      var last := |next| - 1;
      assert next[last].0 in Keys(next);
      assert Keys(next[..last]) <= Keys(next);
      LinkLeavesOthers(list, next[..last], names);
      var so := Linked(list, next[..last]);
      if next[last].1 != "" {
        SetLeavesOthers(so, next[last].0, next[last].1, names);
      } else {
        DeleteLeavesOthers(so, next[last].0, names);
      }
    }
  }

  /** One edit leaves every pair it does not own, in order. */
  lemma EditLeavesOthers(list: seq<Pair>, e: Edit, names: set<string>)
    requires Owns(e) <= names
    ensures Without(Edited(list, e), names) == Without(list, names)
  {
    match e
    case SubmitEdit(fields, form) =>
      DeleteLeavesOthers(SubmitFields(list, fields, form), "page", names);
      SubmitLeavesOthers(list, fields, form, names);
    case ClearEdit(fields) =>
      WithoutTwice(list, Names(fields) + {"page"}, names);
      assert Names(fields) + {"page"} + names == names;
    case TurnEdit(page) => SetLeavesOthers(list, "page", page, names);
    case LinkEdit(next) =>
      LinkLeavesOthers(list, next, names);
      DeleteLeavesOthers(Linked(list, next), "page", names);
    case SectionEdit => DeleteLeavesOthers(list, "page", names);
    case LedgerEdit(run) =>
      SetLeavesOthers(list, "tab", "ledger", names);
      SetLeavesOthers(SetParam(list, "tab", "ledger"), "run", run, names);
  }

  function AllEdited(list: seq<Pair>, es: seq<Edit>): seq<Pair>
    decreases |es|
  {
    if es == [] then list else AllEdited(Edited(list, es[0]), es[1..])
  }

  /**
   * Over any sequence of submits, clears, page turns, view links, section switches and ledger
   * links: a name none of them owns keeps all its values in order, and so do all of them together.
   */
  lemma {:induction false} EditsLeaveOthers(list: seq<Pair>, es: seq<Edit>, names: set<string>, name: string)
    requires forall e :: e in es ==> Owns(e) <= names
    ensures Without(AllEdited(list, es), names) == Without(list, names)
    ensures name !in names ==> Values(AllEdited(list, es), name) == Values(list, name)
    decreases |es|
  {
    if es != [] {
      assert es[0] in es;
      EditLeavesOthers(list, es[0], names);
      EditsLeaveOthers(Edited(list, es[0]), es[1..], names, name);
    }
    ValuesWithout(AllEdited(list, es), names, name);
    ValuesWithout(list, names, name);
  }

  /** Clearing after submitting is clearing, whatever was submitted. */
  lemma SubmitThenClearIsClear(list: seq<Pair>, fields: seq<string>, form: Form)
    ensures Edited(Edited(list, SubmitEdit(fields, form)), ClearEdit(fields)) == Edited(list, ClearEdit(fields))
  {
    EditLeavesOthers(list, SubmitEdit(fields, form), Names(fields) + {"page"});
  }

  /** No page number survives a change of filter, view or section; and a turn leaves exactly one. */
  lemma PageNeverSurvives(list: seq<Pair>, e: Edit)
    ensures e.SubmitEdit? || e.ClearEdit? || e.SectionEdit? || (e.LinkEdit? && "page" !in Keys(e.next)) ==>
              Values(Edited(list, e), "page") == []
    ensures e.TurnEdit? ==> Values(Edited(list, e), "page") == [e.page]
    ensures e.LedgerEdit? ==> Values(Edited(list, e), "page") == Values(list, "page")
                              && Values(Edited(list, e), "tab") == ["ledger"] && Values(Edited(list, e), "run") == [e.run]
  {
    match e
    case SubmitEdit(fields, form) => ValuesWithout(SubmitFields(list, fields, form), {"page"}, "page");
    case ClearEdit(fields) => ValuesWithout(list, Names(fields) + {"page"}, "page");
    case TurnEdit(page) => ValuesSet(list, "page", page, "page");
    case LinkEdit(next) => ValuesWithout(Linked(list, next), {"page"}, "page");
    case SectionEdit => ValuesWithout(list, {"page"}, "page");
    case LedgerEdit(run) =>
      ValuesSet(list, "tab", "ledger", "page");
      ValuesSet(SetParam(list, "tab", "ledger"), "run", run, "page");
      ValuesSet(list, "tab", "ledger", "tab");
      ValuesSet(SetParam(list, "tab", "ledger"), "run", run, "tab");
      ValuesSet(SetParam(list, "tab", "ledger"), "run", run, "run");
  }

  /** After a submit each field says what the form did, once, and nothing when the form was blank. */
  lemma SubmitSays(list: seq<Pair>, fields: seq<string>, form: Form, field: string)
    requires field in fields && field != "page"
    ensures Values(Edited(list, SubmitEdit(fields, form)), field) == if form(field) != "" then [form(field)] else []
  {
    ValuesWithout(SubmitFields(list, fields, form), {"page"}, field);
    FieldsSay(list, fields, form, field);
  }

  lemma {:induction false} FieldsSay(list: seq<Pair>, fields: seq<string>, form: Form, field: string)
    requires field in fields
    ensures Values(SubmitFields(list, fields, form), field) == if form(field) != "" then [form(field)] else []
  {
    var last := |fields| - 1;
    var so := SubmitFields(list, fields[..last], form);
    assert fields == fields[..last] + [fields[last]];
    if form(fields[last]) != "" {
      ValuesSet(so, fields[last], form(fields[last]), field);
    } else {
      ValuesWithout(so, {fields[last]}, field);
    }
    if field != fields[last] {
      FieldsSay(list, fields[..last], form, field);
    }
  }

  /** After a view link each of its names holds the last value the link gives it, once, and nothing where that is empty. */
  lemma LinkSays(list: seq<Pair>, next: seq<Pair>, k: nat)
    requires k < |next| && forall j :: k < j < |next| ==> next[j].0 != next[k].0
    ensures Values(Edited(list, LinkEdit(next)), next[k].0) == if next[k].1 != "" then [next[k].1] else []
  {
    LinksSay(list, next, k);
    assert next[k].0 in Keys(next);
    if "page" !in Keys(next) {
      ValuesWithout(Linked(list, next), {"page"}, next[k].0);
    }
  }

  lemma {:induction false} LinksSay(list: seq<Pair>, next: seq<Pair>, k: nat)
    requires k < |next| && forall j :: k < j < |next| ==> next[j].0 != next[k].0
    ensures Values(Linked(list, next), next[k].0) == if next[k].1 != "" then [next[k].1] else []
  {
    var last := |next| - 1;
    var so := Linked(list, next[..last]);
    if next[last].1 != "" {
      ValuesSet(so, next[last].0, next[last].1, next[k].0);
    } else {
      ValuesWithout(so, {next[last].0}, next[k].0);
    }
    if k < last {
      LinksSay(list, next[..last], k);
    }
  }

  /** Setting a parameter that is there leaves it in its place, and its later values go; one that is not goes at the end. */
  lemma SetInPlace(before: seq<Pair>, was: string, after: seq<Pair>, name: string, value: string)
    requires forall p :: p in before ==> p.0 != name
    ensures SetParam(before + [(name, was)] + after, name, value) == before + [(name, value)] + Without(after, {name})
    ensures SetParam(before, name, value) == before + [(name, value)]
  {
    SetAtEnd(before, name, value);
    SetFirst(before, was, after, name, value);
  }

  lemma {:induction false} SetAtEnd(before: seq<Pair>, name: string, value: string)
    requires forall p :: p in before ==> p.0 != name
    ensures SetParam(before, name, value) == before + [(name, value)]
  {
    if before != [] {
      assert before[0] in before && before == [before[0]] + before[1..];
      SetAtEnd(before[1..], name, value);
    }
  }

  lemma {:induction false} SetFirst(before: seq<Pair>, was: string, after: seq<Pair>, name: string, value: string)
    requires forall p :: p in before ==> p.0 != name
    ensures SetParam(before + [(name, was)] + after, name, value) == before + [(name, value)] + Without(after, {name})
  {
    var list := before + [(name, was)] + after;
    if before == [] {
      assert list[0] == (name, was) && list[1..] == after;
    } else {
      assert before[0] in before && list[0] == before[0] && list[1..] == before[1..] + [(name, was)] + after;
      SetFirst(before[1..], was, after, name, value);
      assert [before[0]] + (before[1..] + [(name, value)] + Without(after, {name})) == before + [(name, value)] + Without(after, {name});
    }
  }

  // ------------------------------------------------------------ as it is run

  /** One control used on a page. */
  method Use(params: QueryParams, e: Edit)
    modifies params
    ensures params.list == Edited(old(params.list), e)
  {
    match e {
      case SubmitEdit(fields, form) => params.Submit(fields, form);
      case ClearEdit(fields) => params.Clear(fields);
      case TurnEdit(page) => params.GoTo(page);
      case LinkEdit(next) => params.LinkTo(next);
      case SectionEdit => params.Carry();
      case LedgerEdit(run) => params.Ledger(run);
    }
  }

  /** A page's query through any sequence of controls: what none of them owns comes out as it went in. */
  method Browse(list: seq<Pair>, es: seq<Edit>, ghost names: set<string>) returns (last: seq<Pair>)
    requires forall e :: e in es ==> Owns(e) <= names
    ensures last == AllEdited(list, es)
    ensures Without(last, names) == Without(list, names)
    ensures forall name :: name !in names ==> Values(last, name) == Values(list, name)
  {
    var params := new QueryParams(list);
    for i := 0 to |es|
      invariant AllEdited(params.list, es[i..]) == AllEdited(list, es)
    {
      assert es[i..][0] == es[i] && es[i..][1..] == es[i + 1..];
      Use(params, es[i]);
    }
    assert es[|es|..] == [];
    last := params.list;
    forall name
      ensures Without(last, names) == Without(list, names)
      ensures name !in names ==> Values(last, name) == Values(list, name)
    {
      EditsLeaveOthers(list, es, names, name);
    }
  }
}
