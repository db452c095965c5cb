/**
 * `toStringImpl` on a graph of JSON nodes: objects met a second time are cut off, so cycles through objects end.
 * Nodes are known by reference, as in the identity map `done`; printing changes no node, so the graph is a constant.
 */
module HeapPrinter {
  import opened Units
  import opened JsonValues
  import opened Escaper
  import opened Printer

  type Ref = nat

  datatype Node =
    | Leaf(json: Json)
    | List(items: seq<Ref>)
    | Fields(entries: map<Text, Ref>)

  type Graph = map<Ref, Node>

  /** Every reference leads somewhere, and leaves are scalars. */
  ghost predicate Closed(g: Graph) {
    forall r :: r in g ==>
      match g[r]
      case Leaf(v) => IsScalar(v)
      case List(items) => forall i :: 0 <= i < |items| ==> items[i] in g
      case Fields(entries) => forall k :: k in entries ==> entries[k] in g
  }

  ghost function ObjectsOf(g: Graph): set<Ref> {
    set r | r in g && g[r].Fields?
  }

  /** Every containment cycle passes through an object: arrays directly inside arrays go down in rank. */
  ghost predicate Ranked(g: Graph, rank: map<Ref, nat>) {
    && (forall r :: r in g ==> r in rank)
    && (forall r, i :: r in g && g[r].List? && 0 <= i < |g[r].items| && g[r].items[i] in g && g[g[r].items[i]].List?
          ==> rank[g[r].items[i]] < rank[r])
  }

  // ---------------------------------------------------------------- what is printed

  /** What a print shows of a graph: objects expanded, and objects only pointed at. */
  datatype View =
    | LeafView(json: Json)
    | ListView(items: seq<View>)
    | FieldsView(ref: Ref, members: seq<MemberView>)
    | Again(ref: Ref)

  datatype MemberView = MemberView(key: Text, view: View)

  /** `w` shows the node `r`; the fields of an object come in some order. */
  ghost predicate Shows(g: Graph, r: Ref, w: View)
    decreases w
  {
    r in g &&
    match w
    case LeafView(v) => g[r] == Leaf(v) && IsScalar(v)
    case ListView(items) =>
      && g[r].List? && |items| == |g[r].items|
      && forall i :: 0 <= i < |items| ==> Shows(g, g[r].items[i], items[i])
    case FieldsView(ref, members) =>
      && ref == r && g[r].Fields? && Distinct(members) && KeysOf(members) == g[r].entries.Keys
      && forall i :: 0 <= i < |members| ==>
           members[i].key in g[r].entries && Shows(g, g[r].entries[members[i].key], members[i].view)
    case Again(ref) => ref == r && g[r].Fields?
  }

  ghost function KeysOf(members: seq<MemberView>): set<Text> {
    set i | 0 <= i < |members| :: members[i].key
  }

  ghost predicate Distinct(members: seq<MemberView>) {
    forall i, j :: 0 <= i < j < |members| ==> members[i].key != members[j].key
  }

  /**
   * The objects done after a view, if it is right about them when it starts from those in `done`: an object is expanded
   * when it is new and pointed at when it is not.
   */
  ghost function Threads(w: View, done: set<Ref>): (r: (bool, set<Ref>))
    ensures done <= r.1
    decreases w
  {
    match w
    case LeafView(_) => (true, done)
    case ListView(items) => ThreadsItems(items, done)
    case FieldsView(ref, members) =>
      var (ok, after) := ThreadsMembers(members, done + {ref});
      (ref !in done && ok, after)
    case Again(ref) => (ref in done, done)
  }

  ghost function ThreadsItems(items: seq<View>, done: set<Ref>): (r: (bool, set<Ref>))
    ensures done <= r.1
    decreases items
  {
    if items == [] then (true, done)
    else
      var (ok, middle) := ThreadsItems(items[..|items| - 1], done);
      var (ok', after) := Threads(items[|items| - 1], middle);
      (ok && ok', after)
  }

  ghost function ThreadsMembers(members: seq<MemberView>, done: set<Ref>): (r: (bool, set<Ref>))
    ensures done <= r.1
    decreases members
  {
    if members == [] then (true, done)
    else
      var (ok, middle) := ThreadsMembers(members[..|members| - 1], done);
      var (ok', after) := Threads(members[|members| - 1].view, middle);
      (ok && ok', after)
  }

  const CUT_OFF: Text := [OPEN_BRACE, DOT, DOT, DOT, CLOSE_BRACE]

  ghost predicate Printable(w: View)
    decreases w
  {
    match w
    case LeafView(v) => IsScalar(v)
    case ListView(items) => forall i :: 0 <= i < |items| ==> Printable(items[i])
    case FieldsView(_, members) => forall i :: 0 <= i < |members| ==> Printable(members[i].view)
    case Again(_) => true
  }

  ghost function ViewText(w: View): Text
    requires Printable(w)
    decreases w
  {
    match w
    case LeafView(v) => PrintScalar(v)
    case ListView(items) => [OPEN_BRACKET] + ItemsText(items) + [CLOSE_BRACKET]
    case FieldsView(_, members) => [OPEN_BRACE] + MembersText(members) + [CLOSE_BRACE]
    case Again(_) => CUT_OFF
  }

  ghost function ItemsText(items: seq<View>): Text
    requires forall i :: 0 <= i < |items| ==> Printable(items[i])
    decreases items
  {
    if items == [] then []
    else ItemsText(items[..|items| - 1]) + (if |items| == 1 then [] else [COMMA]) + ViewText(items[|items| - 1])
  }

  ghost function MembersText(members: seq<MemberView>): Text
    requires forall i :: 0 <= i < |members| ==> Printable(members[i].view)
    decreases members
  {
    if members == [] then []
    else
      var m := members[|members| - 1];
      MembersText(members[..|members| - 1]) + (if |members| == 1 then [] else [COMMA])
      + Quoted(m.key) + [Units.COLON] + ViewText(m.view)
  }

  // ---------------------------------------------------------------- the printers

  /** What a print of `r` from `done` on amounts to. */
  ghost predicate Prints(g: Graph, r: Ref, done: set<Ref>, s: Text, done': set<Ref>, w: View) {
    Shows(g, r, w) && Printable(w) && Threads(w, done) == (true, done') && s == ViewText(w)
  }

  method PrintNode(g: Graph, r: Ref, done: set<Ref>, ghost rank: map<Ref, nat>)
    returns (s: Text, done': set<Ref>, ghost w: View)
    requires Closed(g) && Ranked(g, rank) && r in g
    ensures Prints(g, r, done, s, done', w)
    decreases |ObjectsOf(g) - done|, (if g[r].List? then rank[r] + 1 else 0), 1
  {
    match g[r] {
      case Fields(_) =>
        s, done', w := PrintObject(g, r, done, rank);
      case List(_) =>
        s, done', w := PrintArray(g, r, done, rank);
      case Leaf(v) =>
        s := PrintLeaf(v);
        done', w := done, LeafView(v);
    }
  }

  /** `toString` of the classes without parts. */
  method PrintLeaf(v: Json) returns (s: Text)
    requires IsScalar(v)
    ensures s == PrintScalar(v)
  {
    if v.Str? {
      var escaped := EscapeJsonString(v.s);
      s := [QUOTE] + (escaped + [QUOTE]);
    } else {
      s := PrintScalar(v);
    }
  }

  /** The views of the first elements of an array. */
  ghost predicate ItemsDone(g: Graph, refs: seq<Ref>, views: seq<View>, done: set<Ref>, done': set<Ref>) {
    && |views| <= |refs|
    && (forall k :: 0 <= k < |views| ==> Shows(g, refs[k], views[k]) && Printable(views[k]))
    && ThreadsItems(views, done) == (true, done')
  }

  lemma ItemsStep(g: Graph, refs: seq<Ref>, views: seq<View>, done: set<Ref>, done': set<Ref>,
                  text: Text, after: set<Ref>, view: View)
    requires ItemsDone(g, refs, views, done, done') && |views| < |refs|
    requires Prints(g, refs[|views|], done', text, after, view)
    ensures ItemsDone(g, refs, views + [view], done, after)
    ensures ItemsText(views + [view]) == ItemsText(views) + (if views == [] then [] else [COMMA]) + text
  {
    hide ItemsText, ThreadsItems, ViewText, Threads, Shows, Printable;
    ItemsStepText(views, view);
    ItemsStepThreads(views, view, done, done', after);
  }

  lemma ItemsStepText(views: seq<View>, view: View)
    requires (forall k :: 0 <= k < |views| ==> Printable(views[k])) && Printable(view)
    ensures ItemsText(views + [view]) == ItemsText(views) + (if views == [] then [] else [COMMA]) + ViewText(view)
  {
    var grown := views + [view];
    assert grown[..|grown| - 1] == views;
  }

  lemma ItemsStepThreads(views: seq<View>, view: View, done: set<Ref>, done': set<Ref>, after: set<Ref>)
    requires ThreadsItems(views, done) == (true, done') && Threads(view, done') == (true, after)
    ensures ThreadsItems(views + [view], done) == (true, after)
  {
    var grown := views + [view];
    assert grown[..|grown| - 1] == views;
  }

  method PrintArray(g: Graph, r: Ref, done: set<Ref>, ghost rank: map<Ref, nat>)
    returns (s: Text, done': set<Ref>, ghost w: View)
    requires Closed(g) && Ranked(g, rank) && r in g && g[r].List?
    ensures Prints(g, r, done, s, done', w)
    decreases |ObjectsOf(g) - done|, rank[r] + 1, 0
  {
    var items := g[r].items;
    var sb := [OPEN_BRACKET];
    done' := done;
    ghost var views: seq<View> := [];
    for i := 0 to |items|
      invariant |views| == i && done <= done'
      invariant ItemsDone(g, items, views, done, done')
      invariant sb == [OPEN_BRACKET] + ItemsText(views) + if 0 < i < |items| then [COMMA] else []
    {
      FewerLeft(g, done, done');
      var text, after;
      ghost var view;
      text, after, view := PrintNode(g, items[i], done', rank);
      ItemsStep(g, items, views, done, done', text, after, view);
      Brackets([OPEN_BRACKET], ItemsText(views), if i == 0 then [] else [COMMA], text);
      views := views + [view];
      done' := after;
      sb := sb + text;
      if i + 1 < |items| {
        sb := sb + [COMMA];
      }
    }
    s := sb + [CLOSE_BRACKET];
    w := ListView(views);
  }

  lemma Brackets(a: Text, b: Text, c: Text, d: Text)
    ensures a + b + c + d == a + (b + c + d)
    ensures a + (b + c + d) + [] == a + (b + c + d)
  {
  }

  /** The views of the members of an object visited so far. */
  ghost predicate MembersDone(g: Graph, entries: map<Text, Ref>, members: seq<MemberView>, done: set<Ref>,
      done': set<Ref>) {
    && Distinct(members)
    && (forall k :: 0 <= k < |members| ==>
          && members[k].key in entries && Shows(g, entries[members[k].key], members[k].view)
          && Printable(members[k].view))
    && ThreadsMembers(members, done) == (true, done')
  }

  lemma MembersStep(g: Graph, entries: map<Text, Ref>, members: seq<MemberView>, done: set<Ref>, done': set<Ref>,
                    key: Text, text: Text, after: set<Ref>, view: View)
    requires MembersDone(g, entries, members, done, done') && key in entries && key !in KeysOf(members)
    requires Prints(g, entries[key], done', text, after, view)
    ensures var m := MemberView(key, view);
            && MembersDone(g, entries, members + [m], done, after)
            && KeysOf(members + [m]) == KeysOf(members) + {key}
            && MembersText(members + [m]) ==
               MembersText(members) + (if members == [] then [] else [COMMA]) + Quoted(key) + [Units.COLON] + text
  {
    var m := MemberView(key, view);
    var grown := members + [m];
    assert grown[..|grown| - 1] == members;
    KeysPush(members, m);
  }

  lemma KeysPush(members: seq<MemberView>, m: MemberView)
    ensures KeysOf(members + [m]) == KeysOf(members) + {m.key}
    ensures Distinct(members) && m.key !in KeysOf(members) ==> Distinct(members + [m])
  {
    var grown := members + [m];
    assert grown[|members|] == m;
    forall k | k in KeysOf(members) + {m.key}
      ensures k in KeysOf(grown)
    {
      if k != m.key {
        var i :| 0 <= i < |members| && members[i].key == k;
        assert grown[i].key == k;
      }
    }
    assert forall i :: 0 <= i < |members| ==> members[i].key in KeysOf(members);
  }

  /** Where the loop over the fields of an object stands when those in `left` are still to come. */
  ghost predicate ObjectInv(g: Graph, entries: map<Text, Ref>, left: set<Text>, members: seq<MemberView>,
                            done: set<Ref>, done': set<Ref>, sb: Text)
  {
    && left <= entries.Keys && KeysOf(members) == entries.Keys - left
    && MembersDone(g, entries, members, done, done')
    && sb == [OPEN_BRACE] + MembersText(members) + if members != [] && left != {} then [COMMA] else []
  }

  lemma ObjectStep(g: Graph, entries: map<Text, Ref>, left: set<Text>, members: seq<MemberView>, done: set<Ref>,
                   done': set<Ref>, sb: Text, key: Text, text: Text, after: set<Ref>, view: View)
    requires ObjectInv(g, entries, left, members, done, done', sb) && key in left
    requires key in entries && Prints(g, entries[key], done', text, after, view)
    ensures var left' := left - {key};
            var sb' := sb + [QUOTE] + Escape(key) + [QUOTE] + [Units.COLON] + text;
            ObjectInv(g, entries, left', members + [MemberView(key, view)], done, after,
                      if left' != {} then sb' + [COMMA] else sb')
  {
    MembersStep(g, entries, members, done, done', key, text, after, view);
    MemberAppended(MembersText(members), if members == [] then [] else [COMMA], key, text);
  }

  lemma MemberAppended(before: Text, comma: Text, key: Text, text: Text)
    ensures [OPEN_BRACE] + before + comma + [QUOTE] + Escape(key) + [QUOTE] + [Units.COLON] + text ==
            [OPEN_BRACE] + (before + comma + Quoted(key) + [Units.COLON] + text)
    ensures [OPEN_BRACE] + (before + comma + Quoted(key) + [Units.COLON] + text) + [] ==
            [OPEN_BRACE] + (before + comma + Quoted(key) + [Units.COLON] + text)
  {
    var b, q := before + comma, Quoted(key);
    Regrouped([OPEN_BRACE], before, comma);
    Regrouped([OPEN_BRACE] + b, [QUOTE], Escape(key) + [QUOTE]);
    Regrouped([OPEN_BRACE] + b + [QUOTE], Escape(key), [QUOTE]);
    Regrouped([OPEN_BRACE], b, q);
    Regrouped([OPEN_BRACE], b + q, [Units.COLON]);
    Regrouped([OPEN_BRACE], b + q + [Units.COLON], text);
  }

  method PrintObject(g: Graph, r: Ref, done: set<Ref>, ghost rank: map<Ref, nat>)
    returns (s: Text, done': set<Ref>, ghost w: View)
    requires Closed(g) && Ranked(g, rank) && r in g && g[r].Fields?
    ensures Prints(g, r, done, s, done', w)
    decreases |ObjectsOf(g) - done|, 0, 0
  {
    var sb := [OPEN_BRACE];
    if r in done {
      return sb + [DOT, DOT, DOT, CLOSE_BRACE], done, Again(r);
    }
    hide ObjectInv, Shows;
    done' := done + {r};
    var entries := g[r].entries;
    var left := entries.Keys;
    ghost var members: seq<MemberView> := [];
    ObjectInitially(g, entries, done + {r});
    while left != {}
      invariant done + {r} <= done' && left <= entries.Keys
      invariant ObjectInv(g, entries, left, members, done + {r}, done', sb)
      decreases left
    {
      var key :| key in left;
      FewerObjects(g, r, done, done');
      var escaped := EscapeJsonString(key);
      var text, after;
      ghost var view;
      text, after, view := PrintNode(g, entries[key], done', rank);
      ObjectStep(g, entries, left, members, done + {r}, done', sb, key, text, after, view);
      sb := sb + [QUOTE] + escaped + [QUOTE] + [Units.COLON] + text;
      members := members + [MemberView(key, view)];
      done' := after;
      left := left - {key};
      if left != {} {
        sb := sb + [COMMA];
      }
    }
    ObjectFinally(g, r, members, done, done', sb);
    s := sb + [CLOSE_BRACE];
    w := FieldsView(r, members);
  }

  lemma ObjectInitially(g: Graph, entries: map<Text, Ref>, done: set<Ref>)
    ensures ObjectInv(g, entries, entries.Keys, [], done, done, [OPEN_BRACE])
  {
    assert KeysOf([]) == {};
    assert [OPEN_BRACE] + MembersText([]) == [OPEN_BRACE];
  }

  lemma ObjectFinally(g: Graph, r: Ref, members: seq<MemberView>, done: set<Ref>, done': set<Ref>, sb: Text)
    requires r in g && g[r].Fields? && r !in done
    requires ObjectInv(g, g[r].entries, {}, members, done + {r}, done', sb)
    ensures Prints(g, r, done, sb + [CLOSE_BRACE], done', FieldsView(r, members))
  {
    assert sb == [OPEN_BRACE] + MembersText(members);
  }

  lemma FewerLeft(g: Graph, done: set<Ref>, done': set<Ref>)
    requires done <= done'
    ensures |ObjectsOf(g) - done'| <= |ObjectsOf(g) - done|
  {
    Smaller(ObjectsOf(g) - done', ObjectsOf(g) - done);
  }

  lemma FewerObjects(g: Graph, r: Ref, done: set<Ref>, done': set<Ref>)
    requires r in g && g[r].Fields? && r !in done && done + {r} <= done'
    ensures |ObjectsOf(g) - done'| < |ObjectsOf(g) - done|
  {
    Smaller(ObjectsOf(g) - done', ObjectsOf(g) - done - {r});
  }

  lemma Smaller<T>(a: set<T>, b: set<T>)
    requires a <= b
    ensures |a| <= |b|
  {
    assert b == a + (b - a);
  }
}
