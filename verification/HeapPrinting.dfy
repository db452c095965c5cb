/** What `toStringImpl` prints: each object once, and the value itself when nothing is shared. */
module HeapPrinting {
  import opened Units
  import opened JsonValues
  import opened Printer
  import opened HeapPrinter
  import opened ReaderSpec
  import opened RoundTrip

  // ---------------------------------------------------------------- each object once

  /** The objects whose bodies a view writes out, with multiplicity. */
  ghost function Expanded(w: View): multiset<Ref>
    decreases w
  {
    match w
    case LeafView(_) => multiset{}
    case ListView(items) => ExpandedItems(items)
    case FieldsView(ref, members) => multiset{ref} + ExpandedMembers(members)
    case Again(_) => multiset{}
  }

  ghost function ExpandedItems(items: seq<View>): multiset<Ref>
    decreases items
  {
    if items == [] then multiset{}
    else ExpandedItems(items[..|items| - 1]) + Expanded(items[|items| - 1])
  }

  ghost function ExpandedMembers(members: seq<MemberView>): multiset<Ref>
    decreases members
  {
    if members == [] then multiset{}
    else ExpandedMembers(members[..|members| - 1]) + Expanded(members[|members| - 1].view)
  }

  /** `m` takes `done` to `done'` by adding each of its elements, all new, once. */
  ghost predicate AddsOnce(m: multiset<Ref>, done: set<Ref>, done': set<Ref>) {
    forall r :: m[r] <= 1 && (r in m ==> r !in done) && (r in done' <==> r in done || r in m)
  }

  lemma {:induction false} ThreadsAddOnce(w: View, done: set<Ref>, done': set<Ref>)
    requires Threads(w, done) == (true, done')
    ensures AddsOnce(Expanded(w), done, done')
    decreases w
  {
    match w {
      case LeafView(_) =>
      case ListView(items) => ItemsAddOnce(items, done, done');
      case FieldsView(ref, members) => MembersAddOnce(members, done + {ref}, done');
      case Again(_) =>
    }
  }

  lemma {:induction false} ItemsAddOnce(items: seq<View>, done: set<Ref>, done': set<Ref>)
    requires ThreadsItems(items, done) == (true, done')
    ensures AddsOnce(ExpandedItems(items), done, done')
    decreases items
  {
    if items != [] {
      var most, last := items[..|items| - 1], items[|items| - 1];
      ItemsAddOnce(most, done, ThreadsItems(most, done).1);
      ThreadsAddOnce(last, ThreadsItems(most, done).1, done');
    }
  }

  lemma {:induction false} MembersAddOnce(members: seq<MemberView>, done: set<Ref>, done': set<Ref>)
    requires ThreadsMembers(members, done) == (true, done')
    ensures AddsOnce(ExpandedMembers(members), done, done')
    decreases members
  {
    if members != [] {
      var most, last := members[..|members| - 1], members[|members| - 1];
      MembersAddOnce(most, done, ThreadsMembers(most, done).1);
      ThreadsAddOnce(last.view, ThreadsMembers(most, done).1, done');
    }
  }

  /** `toString()`: on every graph it ends, having written out the body of each object at most once. */
  method ToString(g: Graph, r: Ref, ghost rank: map<Ref, nat>) returns (s: Text)
    requires Closed(g) && Ranked(g, rank) && r in g
    ensures exists w, done :: Prints(g, r, {}, s, done, w) && (forall x :: Expanded(w)[x] <= 1)
  {
    var done;
    ghost var w;
    s, done, w := PrintNode(g, r, {}, rank);
    ThreadsAddOnce(w, {}, done);
  }

  // ---------------------------------------------------------------- nothing shared

  /**
   * Below the nodes of `foot` no object is shared: `foot` gives the objects below each node, which lie apart for
   * different elements and fields, and `val` the value each node spells.
   */
  ghost predicate TreeShaped(g: Graph, foot: map<Ref, set<Ref>>, val: map<Ref, Json>) {
    && foot.Keys == val.Keys
    && forall r :: r in foot ==> r in g && TreeNode(g, foot, val, r)
  }

  ghost predicate TreeNode(g: Graph, foot: map<Ref, set<Ref>>, val: map<Ref, Json>, r: Ref)
    requires r in g && r in foot && foot.Keys == val.Keys
  {
    match g[r]
    case Leaf(v) => val[r] == v && WellFormed(Scalar(v))
    case List(items) =>
      && val[r].Arr? && |val[r].items| == |items|
      && (forall i :: 0 <= i < |items| ==>
            items[i] in foot && foot[items[i]] <= foot[r] && val[r].items[i] == val[items[i]])
      && forall i, j :: 0 <= i < j < |items| ==> foot[items[i]] !! foot[items[j]]
    case Fields(entries) =>
      && r in foot[r] && val[r].Obj? && val[r].fields.Keys == entries.Keys
      && (forall k :: k in entries ==>
            entries[k] in foot && foot[entries[k]] <= foot[r] - {r} && val[r].fields[k] == val[entries[k]])
      && forall k, l :: k in entries && l in entries && k != l ==> foot[entries[k]] !! foot[entries[l]]
  }

  /** The document a view without cut-off objects is. */
  ghost function ToDoc(w: View): Doc
    decreases w
  {
    match w
    case LeafView(v) => Scalar(v)
    case ListView(items) => Array(seq(|items|, i requires 0 <= i < |items| => ToDoc(items[i])))
    case FieldsView(_, members) =>
      Object(seq(|members|, i requires 0 <= i < |members| => Member(members[i].key, ToDoc(members[i].view))))
    case Again(_) => Scalar(Null)
  }

  ghost function ItemDocs(items: seq<View>): (ds: seq<Doc>)
    ensures |ds| == |items| && forall i :: 0 <= i < |ds| ==> ds[i] == ToDoc(items[i])
  {
    seq(|items|, i requires 0 <= i < |items| => ToDoc(items[i]))
  }

  ghost function MemberDocs(members: seq<MemberView>): (ms: seq<Member>)
    ensures |ms| == |members| && forall i :: 0 <= i < |ms| ==> ms[i] == Member(members[i].key, ToDoc(members[i].view))
  {
    seq(|members|, i requires 0 <= i < |members| => Member(members[i].key, ToDoc(members[i].view)))
  }

  // ---------------------------------------------------------------- documents element by element

  lemma {:induction false} ItemsWhole(ds: seq<Doc>)
    requires forall i :: 0 <= i < |ds| ==> WellFormed(ds[i])
    ensures AllWellFormed(ds)
    ensures forall i :: 0 <= i < |ds| ==> ValuesOf(ds)[i] == ValueOf(ds[i])
    decreases |ds|
  {
    if ds != [] {
      ItemsWhole(ds[1..]);
    }
  }

  lemma {:induction false} MembersWhole(ms: seq<Member>)
    requires forall i :: 0 <= i < |ms| ==> WellFormed(ms[i].doc)
    requires forall i, j :: 0 <= i < j < |ms| ==> ms[i].key != ms[j].key
    ensures MembersWellFormed(ms)
    decreases |ms|
  {
    if ms != [] {
      MembersWhole(ms[1..]);
    }
  }

  /** Keys that differ keep their values. */
  lemma {:induction false} FieldsWhole(ms: seq<Member>)
    requires forall i, j :: 0 <= i < j < |ms| ==> ms[i].key != ms[j].key
    ensures forall i :: 0 <= i < |ms| ==> ms[i].key in FieldsOf(ms) && FieldsOf(ms)[ms[i].key] == ValueOf(ms[i].doc)
    ensures FieldsOf(ms).Keys == set i | 0 <= i < |ms| :: ms[i].key
    decreases |ms|
  {
    if ms != [] {
      var rest := ms[1..];
      FieldsWhole(rest);
      assert FieldsOf(ms).Keys == {ms[0].key} + FieldsOf(rest).Keys;
      assert forall i :: 0 <= i < |rest| ==> rest[i] == ms[i + 1];
      assert forall i :: 1 <= i < |ms| ==> ms[i] == rest[i - 1];
    }
  }

  /** Printed elements without the bracket behind them. */
  ghost function Elements(ds: seq<Doc>): Text
    requires AllWellFormed(ds)
  {
    if ds == [] then [] else Print(ds[0]) + ((if |ds| == 1 then [] else [COMMA]) + Elements(ds[1..]))
  }

  lemma {:induction false} ElementsPush(ds: seq<Doc>, d: Doc)
    requires AllWellFormed(ds) && WellFormed(d)
    ensures AllWellFormed(ds + [d])
    ensures Elements(ds + [d]) == Elements(ds) + (if ds == [] then [] else [COMMA]) + Print(d)
    decreases |ds|
  {
    if ds == [] {
      var one := [d];
      assert ds + [d] == one && one[1..] == [];
    } else {
      assert (ds + [d])[1..] == ds[1..] + [d];
      ElementsPush(ds[1..], d);
      var comma := if |ds| == 1 then [] else [COMMA];
      ElementsGlue(Print(ds[0]), comma, Elements(ds[1..]), Print(d), |ds| == 1);
    }
  }

  lemma ElementsGlue(a: Text, comma: Text, b: Text, c: Text, last: bool)
    requires comma == if last then [] else [COMMA]
    requires last ==> b == []
    ensures a + ([COMMA] + (b + comma + c)) == a + (comma + b) + [COMMA] + c
  {
  }

  lemma {:induction false} PrintElements(ds: seq<Doc>)
    requires AllWellFormed(ds)
    ensures PrintItems(ds) == Elements(ds) + [CLOSE_BRACKET]
    decreases |ds|
  {
    if ds != [] {
      PrintElements(ds[1..]);
    }
  }

  ghost function MemberText(m: Member): Text
    requires WellFormed(m.doc)
  {
    Quoted(m.key) + ([Units.COLON] + Print(m.doc))
  }

  /** Printed members without the brace behind them. */
  ghost function MemberBodies(ms: seq<Member>): Text
    requires MembersWellFormed(ms)
  {
    if ms == [] then [] else MemberText(ms[0]) + ((if |ms| == 1 then [] else [COMMA]) + MemberBodies(ms[1..]))
  }

  lemma {:induction false} BodiesPush(ms: seq<Member>, m: Member)
    requires MembersWellFormed(ms + [m])
    ensures MembersWellFormed(ms) && WellFormed(m.doc)
    ensures MemberBodies(ms + [m]) == MemberBodies(ms) + (if ms == [] then [] else [COMMA]) + MemberText(m)
    decreases |ms|
  {
    if ms == [] {
      var one := [m];
      assert ms + [m] == one && one[1..] == [];
    } else {
      assert (ms + [m])[1..] == ms[1..] + [m];
      BodiesPush(ms[1..], m);
      forall i | 0 <= i < |ms[1..]|
        ensures ms[1..][i].key != ms[0].key
      {
        assert (ms[1..] + [m])[i] == ms[1..][i];
      }
      ElementsGlue(MemberText(ms[0]), if |ms| == 1 then [] else [COMMA], MemberBodies(ms[1..]), MemberText(m), |ms| == 1);
    }
  }

  lemma {:induction false} PrintBodies(ms: seq<Member>)
    requires MembersWellFormed(ms)
    ensures PrintMembers(ms) == MemberBodies(ms) + [CLOSE_BRACE]
    decreases |ms|
  {
    if ms != [] {
      PrintBodies(ms[1..]);
      assert PrintMembers(ms) == MemberText(ms[0]) + AfterMember(ms[1..]);
    }
  }

  // ---------------------------------------------------------------- a view of a tree

  /** A view that is a document: its text is the print of the document. */
  ghost predicate IsDocument(w: View) {
    Printable(w) && WellFormed(ToDoc(w)) && ViewText(w) == Print(ToDoc(w))
  }

  ghost predicate IsPrintOf(w: View, v: Json) {
    IsDocument(w) && ValueOf(ToDoc(w)) == v
  }

  lemma {:induction false} ItemsTextIsPrint(items: seq<View>)
    requires forall i :: 0 <= i < |items| ==> IsDocument(items[i])
    ensures forall i :: 0 <= i < |items| ==> Printable(items[i])
    ensures AllWellFormed(ItemDocs(items)) && ItemsText(items) == Elements(ItemDocs(items))
    decreases |items|
  {
    if items != [] {
      var most, last := items[..|items| - 1], items[|items| - 1];
      ItemsTextIsPrint(most);
      ElementsPush(ItemDocs(most), ToDoc(last));
      assert ItemDocs(items) == ItemDocs(most) + [ToDoc(last)];
    }
  }

  lemma WholeMembers(members: seq<MemberView>)
    requires Distinct(members)
    requires forall i :: 0 <= i < |members| ==> IsDocument(members[i].view)
    ensures MembersWellFormed(MemberDocs(members))
    ensures forall i :: 0 <= i < |members| ==> Printable(members[i].view)
  {
    MembersWhole(MemberDocs(members));
  }

  lemma {:induction false} MembersTextIsPrint(members: seq<MemberView>)
    requires Distinct(members)
    requires forall i :: 0 <= i < |members| ==> IsDocument(members[i].view)
    ensures forall i :: 0 <= i < |members| ==> Printable(members[i].view)
    ensures MembersWellFormed(MemberDocs(members)) && MembersText(members) == MemberBodies(MemberDocs(members))
    decreases |members|
  {
    hide IsDocument, MembersText, MemberBodies, MembersWellFormed;
    WholeMembers(members);
    if members == [] {
      NoMembers();
    } else {
      var most, last := members[..|members| - 1], members[|members| - 1];
      MembersTextIsPrint(most);
      LastMember(most, last, members);
    }
  }

  lemma NoMembers()
    ensures MembersWellFormed(MemberDocs([])) && MembersText([]) == MemberBodies(MemberDocs([]))
  {
  }

  lemma LastMember(most: seq<MemberView>, last: MemberView, members: seq<MemberView>)
    requires members == most + [last] && (forall i :: 0 <= i < |members| ==> Printable(members[i].view))
    requires forall i :: 0 <= i < |most| ==> Printable(most[i].view)
    requires MembersWellFormed(MemberDocs(members)) && MembersWellFormed(MemberDocs(most)) && IsDocument(last.view)
    requires members[..|members| - 1] == most && MembersText(most) == MemberBodies(MemberDocs(most))
    ensures MembersText(members) == MemberBodies(MemberDocs(members))
  {
    hide MembersWellFormed, Print, WellFormed;
    var m := Member(last.key, ToDoc(last.view));
    assert MemberDocs(members) == MemberDocs(most) + [m];
    BodiesPush(MemberDocs(most), m);
    MemberGlue(MembersText(most), if most == [] then [] else [COMMA], Quoted(m.key), Print(m.doc));
  }

  lemma MemberGlue(a: Text, comma: Text, key: Text, text: Text)
    ensures a + comma + key + [Units.COLON] + text == a + comma + (key + ([Units.COLON] + text))
  {
    Regrouped(a + comma + key, [Units.COLON], text);
    Regrouped(a + comma, key, [Units.COLON] + text);
  }

  lemma ListIsPrint(w: View, v: Json)
    requires w.ListView? && v.Arr? && |w.items| == |v.items|
    requires forall i :: 0 <= i < |w.items| ==> IsPrintOf(w.items[i], v.items[i])
    ensures IsPrintOf(w, v)
  {
    var ds := ItemDocs(w.items);
    assert ToDoc(w) == Array(ds);
    ItemsTextIsPrint(w.items);
    PrintElements(ds);
    ItemsWhole(ds);
    assert ValuesOf(ds) == v.items;
    Regrouped([OPEN_BRACKET], Elements(ds), [CLOSE_BRACKET]);
  }

  lemma ObjectIsPrint(w: View, v: Json)
    requires w.FieldsView? && v.Obj? && Distinct(w.members) && KeysOf(w.members) == v.fields.Keys
    requires forall i :: 0 <= i < |w.members| ==>
      w.members[i].key in v.fields && IsPrintOf(w.members[i].view, v.fields[w.members[i].key])
    ensures IsPrintOf(w, v)
  {
    FieldsMatch(v.fields, w.members);
    assert forall i :: 0 <= i < |w.members| ==> IsDocument(w.members[i].view);
    ObjectIsDocument(w);
  }

  lemma ObjectIsDocument(w: View)
    requires w.FieldsView? && Distinct(w.members)
    requires forall i :: 0 <= i < |w.members| ==> IsDocument(w.members[i].view)
    ensures IsDocument(w) && ToDoc(w) == Object(MemberDocs(w.members))
  {
    hide MembersText, MemberBodies, MembersWellFormed;
    var ms := MemberDocs(w.members);
    assert ToDoc(w) == Object(ms);
    MembersTextIsPrint(w.members);
    PrintBodies(ms);
    Regrouped([OPEN_BRACE], MemberBodies(ms), [CLOSE_BRACE]);
  }

  lemma FieldsMatch(fields: map<Text, Json>, members: seq<MemberView>)
    requires Distinct(members) && KeysOf(members) == fields.Keys
    requires forall i :: 0 <= i < |members| ==>
      members[i].key in fields && IsPrintOf(members[i].view, fields[members[i].key])
    ensures FieldsOf(MemberDocs(members)) == fields
  {
    hide IsPrintOf, FieldsOf;
    var ms := MemberDocs(members);
    FieldsWhole(ms);
    assert forall i :: 0 <= i < |ms| ==> ms[i].key == members[i].key;
    assert FieldsOf(ms).Keys == fields.Keys;
    forall k | k in fields
      ensures FieldsOf(ms)[k] == fields[k]
    {
      var i :| 0 <= i < |members| && members[i].key == k;
      assert ms[i].key == k;
      PrintHasValue(members[i].view, fields[k]);
    }
  }

  lemma PrintHasValue(w: View, v: Json)
    requires IsPrintOf(w, v)
    ensures ValueOf(ToDoc(w)) == v
  {
  }

  lemma {:induction false} ViewOfTree(g: Graph, foot: map<Ref, set<Ref>>, val: map<Ref, Json>, r: Ref, w: View,
    done: set<Ref>, done': set<Ref>)
    requires TreeShaped(g, foot, val) && r in foot && foot[r] !! done
    requires Shows(g, r, w) && Threads(w, done) == (true, done')
    ensures IsPrintOf(w, val[r]) && done' <= done + foot[r]
    decreases w, 1
  {
    assert TreeNode(g, foot, val, r);
    match w {
      case LeafView(_) =>
      case ListView(_) => ListOfTree(g, foot, val, r, w, done, done');
      case FieldsView(_, _) => ObjectOfTree(g, foot, val, r, w, done, done');
      case Again(_) => assert false;
    }
  }

  lemma {:induction false} ListOfTree(g: Graph, foot: map<Ref, set<Ref>>, val: map<Ref, Json>, r: Ref, w: View,
    done: set<Ref>, done': set<Ref>)
    requires TreeShaped(g, foot, val) && r in foot && foot[r] !! done
    requires Shows(g, r, w) && Threads(w, done) == (true, done')
    requires w.ListView?
    ensures IsPrintOf(w, val[r]) && done' <= done + foot[r]
    decreases w, 0
  {
    assert TreeNode(g, foot, val, r);
    ItemsOfTree(g, foot, val, g[r].items, w.items, foot[r], done, done');
    ListIsPrint(w, val[r]);
  }

  lemma {:induction false} ObjectOfTree(g: Graph, foot: map<Ref, set<Ref>>, val: map<Ref, Json>, r: Ref, w: View,
    done: set<Ref>, done': set<Ref>)
    requires TreeShaped(g, foot, val) && r in foot && foot[r] !! done
    requires Shows(g, r, w) && Threads(w, done) == (true, done')
    requires w.FieldsView?
    ensures IsPrintOf(w, val[r]) && done' <= done + foot[r]
    decreases w, 0
  {
    hide TreeShaped, Shows, IsPrintOf;
    TreeFields(g, foot, val, r, w);
    MembersOfTree(g, foot, val, g[r].entries, w.members, foot[r] - {r}, done + {r}, done');
    ObjectIsPrint(w, val[r]);
  }

  lemma TreeFields(g: Graph, foot: map<Ref, set<Ref>>, val: map<Ref, Json>, r: Ref, w: View)
    requires TreeShaped(g, foot, val) && r in foot && Shows(g, r, w) && w.FieldsView?
    ensures r in g && g[r].Fields? && r in val
    ensures FieldsLieApart(foot, g[r].entries, foot[r] - {r}) && r in foot[r]
    ensures ShowsFields(g, g[r].entries, w.members) && w.ref == r
    ensures val[r].Obj? && KeysOf(w.members) == g[r].entries.Keys == val[r].fields.Keys
    ensures forall k :: k in g[r].entries ==> g[r].entries[k] in val && val[r].fields[k] == val[g[r].entries[k]]
  {
    assert TreeNode(g, foot, val, r);
  }

  /** The nodes in `refs` lie apart, all within `below`. */
  ghost predicate LieApart(foot: map<Ref, set<Ref>>, refs: seq<Ref>, below: set<Ref>) {
    && (forall i :: 0 <= i < |refs| ==> refs[i] in foot && foot[refs[i]] <= below)
    && forall i, j :: 0 <= i < j < |refs| ==> foot[refs[i]] !! foot[refs[j]]
  }

  lemma StillApart(foot: map<Ref, set<Ref>>, refs: seq<Ref>, below: set<Ref>, n: nat, middle: set<Ref>, done': set<Ref>)
    requires LieApart(foot, refs, below) && n < |refs| && done' <= middle + foot[refs[n]]
    requires forall j :: n <= j < |refs| ==> foot[refs[j]] !! middle
    ensures forall j :: n < j < |refs| ==> foot[refs[j]] !! done'
  {
  }

  lemma {:induction false} ItemsOfTree(g: Graph, foot: map<Ref, set<Ref>>, val: map<Ref, Json>, refs: seq<Ref>,
                                       items: seq<View>, below: set<Ref>, done: set<Ref>, done': set<Ref>)
    requires TreeShaped(g, foot, val) && LieApart(foot, refs, below) && below !! done && |items| <= |refs|
    requires forall i :: 0 <= i < |items| ==> Shows(g, refs[i], items[i])
    requires ThreadsItems(items, done) == (true, done')
    ensures forall i :: 0 <= i < |items| ==> IsPrintOf(items[i], val[refs[i]])
    ensures done' <= done + below
    ensures forall j :: |items| <= j < |refs| ==> foot[refs[j]] !! done'
    decreases items
  {
    if items != [] {
      var n := |items| - 1;
      var most, last := items[..n], items[n];
      var middle := ThreadsItems(most, done).1;
      ItemsOfTree(g, foot, val, refs, most, below, done, middle);
      ViewOfTree(g, foot, val, refs[n], last, middle, done');
      StillApart(foot, refs, below, n, middle, done');
      assert forall i :: 0 <= i < n ==> most[i] == items[i];
    }
  }

  lemma NewKey(members: seq<MemberView>)
    requires members != [] && Distinct(members)
    ensures members[|members| - 1].key !in KeysOf(members[..|members| - 1])
  {
  }

  /** The nodes in the fields lie apart, all within `below`. */
  ghost predicate FieldsLieApart(foot: map<Ref, set<Ref>>, entries: map<Text, Ref>, below: set<Ref>) {
    && (forall k :: k in entries ==> entries[k] in foot && foot[entries[k]] <= below)
    && forall k, l :: k in entries && l in entries && k != l ==> foot[entries[k]] !! foot[entries[l]]
  }

  lemma FieldsStillApart(foot: map<Ref, set<Ref>>, entries: map<Text, Ref>, below: set<Ref>, keys: set<Text>, key: Text,
                         middle: set<Ref>, done': set<Ref>)
    requires FieldsLieApart(foot, entries, below) && key in entries && done' <= middle + foot[entries[key]]
    requires forall k :: k in entries && k !in keys ==> foot[entries[k]] !! middle
    ensures forall k :: k in entries && k !in keys + {key} ==> foot[entries[k]] !! done'
    ensures foot[entries[key]] <= below
  {
  }

  ghost predicate ShowsFields(g: Graph, entries: map<Text, Ref>, members: seq<MemberView>) {
    && Distinct(members)
    && forall i :: 0 <= i < |members| ==>
         members[i].key in entries && Shows(g, entries[members[i].key], members[i].view)
  }

  lemma FirstFields(g: Graph, entries: map<Text, Ref>, members: seq<MemberView>, n: nat)
    requires ShowsFields(g, entries, members) && n <= |members|
    ensures ShowsFields(g, entries, members[..n])
  {
    hide Shows;
    assert forall i :: 0 <= i < n ==> members[..n][i] == members[i];
  }

  lemma {:induction false} MembersOfTree(g: Graph, foot: map<Ref, set<Ref>>, val: map<Ref, Json>,
                                         entries: map<Text, Ref>, members: seq<MemberView>, below: set<Ref>,
                                         done: set<Ref>, done': set<Ref>)
    requires TreeShaped(g, foot, val) && FieldsLieApart(foot, entries, below) && below !! done
    requires ShowsFields(g, entries, members) && ThreadsMembers(members, done) == (true, done')
    ensures forall i :: 0 <= i < |members| ==> IsPrintOf(members[i].view, val[entries[members[i].key]])
    ensures done' <= done + below
    ensures forall k :: k in entries && k !in KeysOf(members) ==> foot[entries[k]] !! done'
    decreases members
  {
    hide TreeNode, IsPrintOf, KeysOf;
    if members != [] {
      var n := |members| - 1;
      var most, last := members[..n], members[n];
      var middle := ThreadsMembers(most, done).1;
      assert members == most + [last];
      FirstFields(g, entries, members, n);
      MembersOfTree(g, foot, val, entries, most, below, done, middle);
      NewKey(members);
      KeysPush(most, last);
      ViewOfTree(g, foot, val, entries[last.key], last.view, middle, done');
      FieldsStillApart(foot, entries, below, KeysOf(most), last.key, middle, done');
      assert forall i :: 0 <= i < n ==> most[i] == members[i];
    }
  }

  // ---------------------------------------------------------------- results

  /**
   * The round trip on the graph itself: when nothing below a node is shared, `toString` prints its value in some
   * visiting order, and the reader takes the text back to the value if that order is a readable one.
   */
  method PrintTree(g: Graph, r: Ref, ghost rank: map<Ref, nat>, ghost foot: map<Ref, set<Ref>>,
      ghost val: map<Ref, Json>)
    returns (s: Text)
    requires Closed(g) && Ranked(g, rank) && TreeShaped(g, foot, val) && r in foot
    ensures exists d :: Visits(d, val[r]) && s == Print(d) && (Readable(d) <==> ReadJson(s) == Ok(val[r]))
  {
    var done;
    ghost var w;
    s, done, w := PrintNode(g, r, {}, rank);
    ViewOfTree(g, foot, val, r, w, {}, done);
    assert s + [] == s;
    ParserUndoesPrinter(val[r], ToDoc(w), []);
  }

  lemma {:induction false} KeyCount(members: seq<MemberView>)
    requires Distinct(members)
    ensures |KeysOf(members)| == |members|
    decreases |members|
  {
    if members == [] {
      assert KeysOf(members) == {};
    } else {
      var most, last := members[..|members| - 1], members[|members| - 1];
      assert members == most + [last];
      KeyCount(most);
      KeysPush(most, last);
      assert last.key !in KeysOf(most);
    }
  }

  /** An object that holds only itself, under any key and in any graph: the inner occurrence is cut off. */
  lemma SelfHolding(g: Graph, r: Ref, k: Text, s: Text, done: set<Ref>, w: View)
    requires r in g && g[r] == Fields(map[k := r]) && Prints(g, r, {}, s, done, w)
    ensures s == [OPEN_BRACE] + Quoted(k) + [Units.COLON] + CUT_OFF + [CLOSE_BRACE]
  {
    var ms := w.members;
    KeyCount(ms);
    assert g[r].entries.Keys == {k};
    assert |ms| == 1 && ms[0].key in KeysOf(ms);
    assert ms[..0] == [] && ms == [ms[0]];
    assert {} + {r} == {r} && ThreadsMembers(ms, {r}).0;
    assert ThreadsMembers(ms[..0], {r}) == (true, {r});
    assert Shows(g, r, ms[0].view);
    assert Threads(ms[0].view, {r}).0;
    assert ms[0].view == Again(r);
    assert MembersText(ms) == [] + [] + Quoted(k) + [Units.COLON] + CUT_OFF;
    assert [] + [] + Quoted(k) == Quoted(k);
    Regrouped([OPEN_BRACE], Quoted(k), [Units.COLON]);
    Regrouped([OPEN_BRACE], Quoted(k) + [Units.COLON], CUT_OFF);
  }
}
