/** The words and string operations of the SignalK formats. */
module SignalKKeys {
  import opened Units
  import opened Pointers

  const VALUE: Text := [0x76, 0x61, 0x6C, 0x75, 0x65]  // value
  const VALUES: Text := [0x76, 0x61, 0x6C, 0x75, 0x65, 0x73]  // values
  const SOURCE_REF: Text := [0x24, 0x73, 0x6F, 0x75, 0x72, 0x63, 0x65]  // $source
  const TIMESTAMP: Text := [0x74, 0x69, 0x6D, 0x65, 0x73, 0x74, 0x61, 0x6D, 0x70]  // timestamp
  const SELF: Text := [0x73, 0x65, 0x6C, 0x66]  // self
  const VERSION: Text := [0x76, 0x65, 0x72, 0x73, 0x69, 0x6F, 0x6E]  // version
  const SENTENCE: Text := [0x73, 0x65, 0x6E, 0x74, 0x65, 0x6E, 0x63, 0x65]  // sentence
  const SOURCES: Text := [0x73, 0x6F, 0x75, 0x72, 0x63, 0x65, 0x73]  // sources
  const RESOURCES: Text := [0x72, 0x65, 0x73, 0x6F, 0x75, 0x72, 0x63, 0x65, 0x73]  // resources
  const CONFIG: Text := [0x63, 0x6F, 0x6E, 0x66, 0x69, 0x67]  // config
  const VESSELS: Text := [0x76, 0x65, 0x73, 0x73, 0x65, 0x6C, 0x73]  // vessels
  const LIST: Text := [0x6C, 0x69, 0x73, 0x74]  // list
  const ATTR: Text := [0x5F, 0x61, 0x74, 0x74, 0x72]  // _attr
  const UNKNOWN: Text := [0x75, 0x6E, 0x6B, 0x6E, 0x6F, 0x77, 0x6E]  // unknown
  const NONE: Text := [0x6E, 0x6F, 0x6E, 0x65]  // none
  const CONTEXT: Text := [0x63, 0x6F, 0x6E, 0x74, 0x65, 0x78, 0x74]  // context
  const UPDATES: Text := [0x75, 0x70, 0x64, 0x61, 0x74, 0x65, 0x73]  // updates
  const PUT: Text := [0x70, 0x75, 0x74]  // put
  const GET: Text := [0x67, 0x65, 0x74]  // get
  const SUBSCRIBE: Text := [0x73, 0x75, 0x62, 0x73, 0x63, 0x72, 0x69, 0x62, 0x65]  // subscribe
  const UNSUBSCRIBE: Text := [0x75, 0x6E, 0x73, 0x75, 0x62, 0x73, 0x63, 0x72, 0x69, 0x62, 0x65]  // unsubscribe
  const PATH: Text := [0x70, 0x61, 0x74, 0x68]  // path

  const META: Text := [0x6D, 0x65, 0x74, 0x61]  // meta
  const AIRCRAFT: Text := [0x61, 0x69, 0x72, 0x63, 0x72, 0x61, 0x66, 0x74]  // aircraft
  const SAR: Text := [0x73, 0x61, 0x72]  // sar
  const ATON: Text := [0x61, 0x74, 0x6F, 0x6E]  // aton

  /** The mark between a path and the source of one of its values. */
  const DOT_VALUES_DOT: Text := [DOT] + VALUES + [DOT]

  lemma FullWords()
    ensures VALUE == Chars("value") && VALUES == Chars("values") && SOURCE_REF == Chars("$source") && TIMESTAMP == Chars("timestamp")
    ensures SELF == Chars("self") && VERSION == Chars("version") && SENTENCE == Chars("sentence") && SOURCES == Chars("sources")
    ensures DOT_VALUES_DOT == Chars(".values.")
  {
  }

  lemma PlaceWords()
    ensures RESOURCES == Chars("resources") && CONFIG == Chars("config") && VESSELS == Chars("vessels") && LIST == Chars("list")
    ensures ATTR == Chars("_attr") && UNKNOWN == Chars("unknown") && NONE == Chars("none") && CONTEXT == Chars("context")
  {
  }

  lemma DeltaWords()
    ensures UPDATES == Chars("updates") && PUT == Chars("put") && GET == Chars("get") && SUBSCRIBE == Chars("subscribe")
    ensures UNSUBSCRIBE == Chars("unsubscribe") && PATH == Chars("path") && META == Chars("meta") && AIRCRAFT == Chars("aircraft")
    ensures SAR == Chars("sar") && ATON == Chars("aton")
  {
  }

  /** The words of the formats. */
  lemma WordsSpelled()
    ensures VALUE == Chars("value") && VALUES == Chars("values") && SOURCE_REF == Chars("$source") && TIMESTAMP == Chars("timestamp")
    ensures SELF == Chars("self") && VERSION == Chars("version") && SENTENCE == Chars("sentence") && SOURCES == Chars("sources")
    ensures RESOURCES == Chars("resources") && CONFIG == Chars("config") && VESSELS == Chars("vessels") && LIST == Chars("list")
    ensures ATTR == Chars("_attr") && UNKNOWN == Chars("unknown") && NONE == Chars("none") && CONTEXT == Chars("context")
    ensures UPDATES == Chars("updates") && PUT == Chars("put") && GET == Chars("get") && SUBSCRIBE == Chars("subscribe")
    ensures UNSUBSCRIBE == Chars("unsubscribe") && PATH == Chars("path") && META == Chars("meta") && AIRCRAFT == Chars("aircraft")
    ensures SAR == Chars("sar") && ATON == Chars("aton")
    ensures DOT_VALUES_DOT == Chars(".values.")
  {
    FullWords();
    PlaceWords();
    DeltaWords();
    hide Chars, VALUE, VALUES, SOURCE_REF, TIMESTAMP, SELF, VERSION, SENTENCE, SOURCES, RESOURCES, CONFIG, VESSELS, LIST, ATTR, UNKNOWN,
      NONE, CONTEXT, UPDATES, PUT, GET, SUBSCRIBE, UNSUBSCRIBE, PATH, META, AIRCRAFT, SAR, ATON, DOT_VALUES_DOT;
  }

  // ---------------------------------------------------------------- strings

  /** `indexOf`, or -1. */
  function IndexOf(t: Text, part: Text): (i: int)
    ensures -1 <= i <= |t|
    ensures i >= 0 ==> part <= t[i..]
  {
    if part <= t then 0
    else if t == [] then -1
    else
      var i := IndexOf(t[1..], part);
      if i < 0 then -1 else i + 1
  }

  predicate Contains(t: Text, part: Text) {
    IndexOf(t, part) >= 0
  }

  function SubstringBefore(t: Text, part: Text): Text {
    var i := IndexOf(t, part);
    if i < 0 then t else t[..i]
  }

  function SubstringAfter(t: Text, part: Text): Text {
    var i := IndexOf(t, part);
    if i < 0 then [] else t[i + |part|..]
  }

  /** `lastIndexOf`, or -1. */
  function LastIndexOf(t: Text, part: Text): (i: int)
    ensures -1 <= i <= |t|
    ensures i >= 0 ==> part <= t[i..]
  {
    var i := if t == [] then -1 else LastIndexOf(t[1..], part);
    if i >= 0 then i + 1 else if part <= t then 0 else -1
  }

  function SubstringBeforeLast(t: Text, part: Text): Text {
    var i := LastIndexOf(t, part);
    if i < 0 then t else t[..i]
  }

  function SubstringAfterLast(t: Text, part: Text): Text {
    var i := LastIndexOf(t, part);
    if i < 0 then [] else t[i + |part|..]
  }

  predicate EndsWith(t: Text, part: Text) {
    |part| <= |t| && t[|t| - |part|..] == part
  }

  /** No occurrence before `i`, and one there. */
  lemma {:induction false} FirstAt(t: Text, part: Text, i: nat)
    requires i <= |t| && part <= t[i..] && forall j :: 0 <= j < i ==> !(part <= t[j..])
    ensures IndexOf(t, part) == i
  {
    if i > 0 {
      assert t[0..] == t;
      assert t[1..][i - 1..] == t[i..];
      forall j | 0 <= j < i - 1
        ensures !(part <= t[1..][j..])
      {
        assert t[1..][j..] == t[j + 1..];
      }
      FirstAt(t[1..], part, i - 1);
    } else {
      assert t[0..] == t;
    }
  }

  lemma {:induction false} Nowhere(t: Text, part: Text)
    requires forall j :: 0 <= j <= |t| ==> !(part <= t[j..])
    ensures IndexOf(t, part) == -1
  {
    assert t[0..] == t;
    if t != [] {
      forall j | 0 <= j <= |t| - 1
        ensures !(part <= t[1..][j..])
      {
        assert t[1..][j..] == t[j + 1..];
      }
      Nowhere(t[1..], part);
    }
  }

  // ---------------------------------------------------------------- paths

  /** A segment of a path: one or more units, none of them a dot. */
  predicate IsSegment(s: Text) {
    s != [] && DOT !in s
  }

  predicate IsPath(path: seq<Text>) {
    path != [] && forall i :: 0 <= i < |path| ==> IsSegment(path[i])
  }

  /** The segments, each with a dot behind it. */
  function Dotted(path: seq<Text>): Text {
    if path == [] then [] else path[0] + [DOT] + Dotted(path[1..])
  }

  /** The segments with dots between them. */
  function Joined(path: seq<Text>): Text {
    if path == [] then []
    else if |path| == 1 then path[0]
    else path[0] + [DOT] + Joined(path[1..])
  }

  lemma {:induction false} JoinedIsDotted(path: seq<Text>)
    requires path != []
    ensures Joined(path) == Dotted(path[..|path| - 1]) + path[|path| - 1]
  {
    if |path| > 1 {
      JoinedIsDotted(path[1..]);
      var n := |path| - 1;
      assert path[1..][..n - 1] == path[..n][1..];
      Regrouped(path[0] + [DOT], Dotted(path[1..n]), path[n]);
      assert path[..n][1..] == path[1..n];
    }
  }

  lemma {:induction false} PiecesOfJoined(path: seq<Text>)
    requires IsPath(path)
    ensures Pieces(Joined(path), DOT) == path
  {
    if |path| == 1 {
      assert path[0] + [] == path[0];
      PiecesOf(path[0], [], DOT);
    } else {
      PiecesOfJoined(path[1..]);
      var rest := [DOT] + Joined(path[1..]);
      Regrouped(path[0], [DOT], Joined(path[1..]));
      PiecesOf(path[0], rest, DOT);
      assert rest[1..] == Joined(path[1..]);
    }
  }

  /** Splitting undoes joining. */
  lemma SplitJoined(path: seq<Text>)
    requires IsPath(path)
    ensures Split(Joined(path), DOT) == path && Joined(path) != []
  {
    PiecesOfJoined(path);
    if |path| == 1 {
      assert DOT !in path[0];
    } else {
      assert Joined(path)[|path[0]|] == DOT;
    }
  }

  lemma JoinedInjective(p: seq<Text>, q: seq<Text>)
    requires IsPath(p) && IsPath(q) && Joined(p) == Joined(q)
    ensures p == q
  {
    PiecesOfJoined(p);
    PiecesOfJoined(q);
  }
}
