# Verification model of the cloud data synchroniser

This project models, in Dafny, the parts of the repository that compute rather than talk to the outside, and proves what
they are for.

* **JSON** (`Units`, `Json`, `Escaper`, `Numbers`, `LooseNumbers`, `ReaderSpec`, `Reader`, `Printer`, `RoundTrip`,
  `JsonGrammar`). Text is a sequence of UTF-16 units. The reader is a class with the fields of the original, proved equal to
  a functional specification, and this against the grammar of RFC 8259; printing is given for every order of fields. Printing
  and reading are inverse exactly on the readable documents.
* **Printing graphs** (`HeapPrinter`, `HeapPrinting`). The printer with its map of objects done, on graphs with cycles.
* **Minifying** (`Minify`, `Layout`, `Comments`, `MinifyLayout`, `ReadLayout`, `MinifyLimits`, `MinifyNumbers`). Texts are laid
  out as lexemes with gaps; the reader looks only at the lexemes, and the minifier keeps them. For a comment, for a string and
  for two numbers in a row the exact condition is proved under which text and minified text are read alike.
* **Schemas** (`Schema`, `SchemaCompiler`, `SchemaMeaning`, `SchemaKeywords`). The compiler into instructions, memoised over a graph of schema
  nodes that may be cyclic, and the proof that instructions and keywords accept the same documents. The keywords are read by
  draft 4, which the documentation promises, or as `compile` takes them; the two readings part at `additionalItems` without
  `items`, at `pattern`, and at the type `integer`, and for each of them it is proved when they agree.
* **Pointers and merging** (`Pointer`, `ArrayMerge`, `ArrayMerging`, `ObjectMerge`, `ObjectMerging`).
* **SignalK formats** (`SignalKKeys`, `FullFormat`, `FullTrees`, `FullRoundTrip`, `FullEntries`, `DeltaFormat`, `DeltaClasses`,
  `DeltaRoundTrip`, `DeltaContexts`, `DeltaPuts`, `DeltaEx`). The formats undo each other where they do, and what becomes of
  single entries is said by the parts of their keys.
* **The store** (`Store`, `StoreRuns`, `StoreView`, `StoreLoad`, `StoreBack`, `StoreSides`, `StoreMixed`, `StoreMixedBack`,
  `StoreNested`, `StoreSections`). The database is a map from series to latest points; a run of saves, of values, objects,
  sentences, meta data and plain entries, and a load are put together.
* **The pipeline** (`Queue`, `Pipeline`, `SynchService`). The ring buffer, the choice of a transport, and whole runs of ticks.

Where the code does something else than its documentation or its name says, the model follows the code. A lemma with a
concrete input shows it, and another says exactly when the code does what is expected:

* a key made of one mark: `PunctuationKeyFails`, and the readable documents of `ParserUndoesPrinter`;
* comments that the reader does not take as the tokenizer does: `StarredCommentDiffers`, and `ClearIffAlike`;
* strings that the tokenizer leaves open: `OpenStringDiffers`, and `PlainIffAlike`;
* two numbers in a row, which are no JSON: `NumbersRunTogether`, and `SignedIffAlike`;
* `additionalItems` without `items`: `EmptyArrayPasses` and `LooseElementRefused`, and `ForbiddenItems` and `LooseSchema`;
* `pattern`, which draft 4 looks for anywhere in the string and the code takes for the whole of it: `PartialMatchRefused`, and
  `PatternsAgreeIff`;
* the type `integer`, which takes `1.0`: `WholeNumberAccepted`, and `TypesAgreeIff`;
* unsorted lists merged as sorted ones: `UnsortedGrows`, and `SortedTwice`;
* repeats off the end of a sorted list: `RepeatsAtTheEnd`, and `RepeatsDecide`;
* the empty key of a pointer: `EmptyKeyMissed`, and `InvertedIffNamed`;
* deltas, of which `generateDelta` promises one for each context and makes one in all: `TwoVesselsLost`, and
  `ComesBackIffOneVessel`;
* puts, none of which is read back: `PutDeltaLost`;
* object values of later sources: `SecondSourceMisplaced`, and `ComesBackIff`;
* fields that were sent before and stay beside a later object: `OlderFieldStays`, and `ComesBackWholeIff`;
* a first source that mixes values with objects: `MixedFails`, and `StoreThenLoad`;
* a plain entry that is null, which cannot be read back: `PlainComesBack`, and for sections `LatestIsSaved`;
* a plain entry at the path of values of sources: `SharedPathFails`, and `MixedStoreThenLoad`;
* fields of meta data, which come back in the entry itself beside an empty `meta`: `SideLoads`;
* the names of sources under the `values` of an entry, which are saved and not loaded: `OtherSourceIsLost`;
* a merge by the order of a field, which fails at the first comparison: `SortByFieldFails`;
* a frequency whose sum with the clock is no `long`: `OverflowHandsOverAtOnce`, and `HandoversApart`.

What comes from outside is a parameter: the clock, pings, configuration, the value of a decimal literal, regular expressions,
the time formats, and the order in which hash maps are gone through.

## Model

| member | source | states |
|---|---|---|
| ReaderClass.Reader.Next | src/main/java/mjson/Json.java:2748-2755 | moves one unit on; the reader stays a view of the rest of the text, past the end included |
| ReaderClass.Reader.SkipWhite | src/main/java/mjson/Json.java:2763-2793 | white space, `//` comments and block comments are passed over as by the specification, which consumes stars in pairs; an open comment is an error |
| ReaderClass.Reader.ReadStringBody | src/main/java/mjson/Json.java:2973-3001 | the forward escape scan gives the string of the specification and stops behind its quote, or fails where it fails |
| ReaderClass.Reader.ReadNumberText | src/main/java/mjson/Json.java:2928-2961 | the look-ahead scan over sign, digits, fraction and exponent gives the number of the specification and stops at the first unit that is no part of it |
| ReaderClass.Reader.ReadNext | src/main/java/mjson/Json.java:2830-2870 | one token, a whole value unless it is a mark; the mutable `token` field agrees with what is returned, errors included |
| ReaderClass.Reader.ReadArrayBody | src/main/java/mjson/Json.java:2908-2926 | the items of an array, through the token field, as by the specification |
| ReaderClass.Reader.ReadObjectBody | src/main/java/mjson/Json.java:2885-2906 | the members of an object; a later key that is one of the six marks is an error |
| ReaderClass.JsonRead | src/main/java/mjson/Json.java:2795-2821 | the whole reader refines the functional specification on every text |
| JsonGrammar.SyntaxRead | src/main/java/mjson/Json.java:2830-2961 | every text of the grammar of RFC 8259, followed by what cannot continue it, is read as the value that it denotes, and the reader stops where it ends; integers of less than twenty digits that are no `long` are refused |
| JsonGrammar.ReadsGrammar | src/main/java/mjson/Json.java:2795-2821 | every JSON text of RFC 8259, with white space around its value, is read as what it denotes |
| JsonGrammar.PassedOverIff | src/main/java/mjson/Json.java:2767 | a unit in front of a value is passed over if and only if it is one of the listed white space units of Java, tab, line feed, carriage return and space among them |
| JsonGrammar.LooseEscapes | src/main/java/mjson/Json.java:3003-3034 | behind a backslash and `u` the reader takes any four units for their hex digits, of either case, and passes over what is none; behind a backslash any unit without a meaning of its own stands for itself |
| Escaper.EscapeJsonString | src/main/java/mjson/Json.java:2626-2707 | the run-copying loop writes what escaping unit by unit gives |
| Escaper.EscapedTextIsClean | src/main/java/mjson/Json.java:2626-2707 | read from the front, the escaped form of any text is plain units that need no escape and whole escapes: every backslash begins one, and no quote, control unit or line terminator stands outside one |
| Escaper.LeftAlone | src/main/java/mjson/Json.java:2626-2687 | besides quotes and backslashes only units that may stand bare are left in an escaped text, and a text is left alone if and only if all of its units may |
| Escaper.ShortEscapes | src/main/java/mjson/Json.java:2638-2666 | the seven escapes of two units |
| RoundTrip.ReadEscaped | src/main/java/mjson/Json.java:2973-3034 | reading an escaped text and a quote gives the original units back, lone surrogates included, and stops behind the quote |
| Numbers.ReadPrintedInt | src/main/java/mjson/Json.java:2928-2961 | a printed integer is read back exactly if it fits a `long` or has twenty digits or more, and is a NumberFormatException otherwise |
| Numbers.ReadPrintedDecimal | src/main/java/mjson/Json.java:2928-2961 | a printed decimal is read back as the same literal, and the reader stops where it ends |
| LooseNumbers.LooseNumberRead | src/main/java/mjson/Json.java:2928-2961 | the exact outcome for every number that begins with a minus or a digit, with digits of any script and with parts left empty: its value, its literal, or the exception |
| RoundTrip.ParserUndoesPrinter | src/main/java/mjson/Json.java:2830-2961 | for every value, every order of its fields and every rest that cannot extend a number: the printed text is read back as the value, stopping at the rest, if and only if the document is readable |
| RoundTrip.PunctuationKeyFails | src/main/java/mjson/Json.java:2885-2906 | the same object is read back or refused by the order in which a key made of one mark is printed |
| Printer.ArraySaid | src/main/java/mjson/Json.java:2335-2358 | the text of an array is those of its elements with commas between them, in brackets |
| Printer.ObjectSaid | src/main/java/mjson/Json.java:2513-2542 | the text of an object is those of its members, each a name in quotes, a colon and a value, with commas between them, in braces |
| HeapPrinter.PrintNode | src/main/java/mjson/Json.java:2335-2358 | printing a cyclic graph ends, by (objects not done, array rank), and its text is that of a view in which each object is expanded when new and cut off when met again |
| HeapPrinter.PrintArray | src/main/java/mjson/Json.java:2335-2358 | an array prints its items in turn, passing the set of done objects through |
| HeapPrinter.PrintObject | src/main/java/mjson/Json.java:2513-2542 | an object is marked done before its members are printed, in any order |
| HeapPrinting.ThreadsAddOnce | src/main/java/mjson/Json.java:2513-2542 | a view adds each object to the done set once, and expands no object that was done |
| HeapPrinting.ToString | src/main/java/mjson/Json.java:2330-2358 | every print from the top expands each object at most once |
| HeapPrinting.ViewOfTree | src/main/java/mjson/Json.java:2335-2358 | on a graph without sharing nothing is cut off: the view is a print of the tree |
| HeapPrinting.PrintTree | src/main/java/mjson/Json.java:2513-2542 | the text of a tree-shaped graph is a print of its value, and reads back as that value exactly if it is readable |
| HeapPrinting.SelfHolding | src/main/java/mjson/Json.java:2513-2542 | an object whose only field, under any key, is itself prints that field cut off |
| Minifier.Minify | src/main/java/minify/Minify.java:29-97 | the loop over matches with its flags, `from` and the string builder computes the state machine over units |
| Minifier.MagicIsFirstMatch | src/main/java/minify/Minify.java:69-77 | the length taken for the backslashes is that of the first match of their pattern from the left, the longest one there |
| Minifier.WhiteSpaceGoes | src/main/java/minify/Minify.java:55-96 | a text without quotes and slashes that ends with a line end comes out without tabs, line ends, vertical tabs, form feeds and spaces, and otherwise as it was |
| MinifyLayout.BodyIsEscaped | src/main/java/minify/Minify.java:69-77 | the backwards parity test on backslashes takes every quote inside a string as escaped, and the closing one as closing |
| MinifyLayout.RunPieces | src/main/java/minify/Minify.java:55-96 | between tokens the machine strips each gap, and leaves what stands after the last token as it is |
| MinifyLayout.MinifiedPieces | src/main/java/minify/Minify.java:55-96 | minifying a text is leaving out its gaps, except behind the last token |
| MinifyLayout.CompactLexemes | src/main/java/minify/Minify.java:55-96 | the lexemes stay the same, in order |
| ReadLayout.GapsDoNotMatter | src/main/java/mjson/Json.java:2763-2793 | texts with the same lexemes are read alike, errors included, whatever white space and whatever clear comments stand between |
| Comments.BlockEndsIff | src/main/java/mjson/Json.java:2770-2783 | the reader ends a block comment at its closing mark, whatever follows, if and only if the body passes the scan that takes stars in pairs |
| Comments.CommentFinds | src/main/java/mjson/Json.java:2763-2793 | for every comment, line or block, and every rest: the reader leaves with the comment, or finds no end, or meets the lexeme that its passage through the body says |
| ReadLayout.MinifyKeepsMeaning | src/main/java/minify/Minify.java:29-97 | reading a minified text and reading the text agree, errors included, when comments are clear, strings end plainly, and no number is followed at once by a number without sign |
| MinifyLimits.ClearIffAlike | src/main/java/minify/Minify.java:29-97 | for every comment that the tokenizer closes: text and minified text are read alike in all layouts around it if and only if the reader takes the whole comment, and nothing else, for comments |
| MinifyLimits.PlainIffAlike | src/main/java/minify/Minify.java:69-77 | for every string: text and minified text are read alike in all layouts around it if and only if it does not end in a line terminator behind an odd number of backslashes |
| MinifyNumbers.SignedIffAlike | src/main/java/minify/Minify.java:29-97 | for every two numbers with a space between them: text and minified text are read alike in all layouts around them if and only if the second has a sign, or the reader refuses the first one with the gap and without |
| MinifyNumbers.NumbersRunTogether | src/main/java/minify/Minify.java:29-97 | `1 2` and a line feed is read as 1, and its minified form `12` as 12 |
| MinifyLimits.StarredCommentDiffers | src/main/java/mjson/Json.java:2775-2777 | a comment whose body is one star: the reader finds no end and fails, and reads the minified text |
| MinifyLimits.OpenStringDiffers | src/main/java/minify/Minify.java:69-77 | a string that ends in a backslash and a line separator is left open, and the string behind it loses its space |
| MinifyLimits.ClearWithinItself | src/main/java/mjson/Json.java:2770-2783 | a comment that the reader ends too early and yet takes whole, the rest of it being a second comment to it |
| SchemaCompiler.Compiler.Compile | src/main/java/mjson/Json.java:927-1058 | compiling ends on cyclic graphs, by the nodes not yet in the map; each node is compiled once, and the result stands for it: its sequence, or the only element of it |
| SchemaCompiler.Compiler.CompileChildren | src/main/java/mjson/Json.java:927-1058 | every child instruction is its own node's sequence or the unwrapped element of it, also for nodes still being compiled |
| SchemaMeaning.CountsOne | src/main/java/mjson/Json.java:851-878 | counting matches to one is that exactly one alternative matches |
| SchemaMeaning.CombinedMeans | src/main/java/mjson/Json.java:939-963 | the checks for `allOf`, `anyOf`, `oneOf` and `not` pass exactly when the keywords accept |
| SchemaMeaning.ObjectMeans | src/main/java/mjson/Json.java:971-995 | the object check, or its absence when it is trivial, passes exactly when properties, patterns, additional properties and sizes accept |
| SchemaMeaning.ArrayChecksMean | src/main/java/mjson/Json.java:664-699 | the exact outcome of the array check for every node, with its two departures where `additionalItems` stands without `items` |
| SchemaMeaning.OutcomeByReading | src/main/java/mjson/Json.java:664-699 | that outcome is what the reading says: for every node when the keywords are read as compiled, for nodes regular in their items when they are read as documented |
| SchemaMeaning.RegularOutcome | src/main/java/mjson/Json.java:664-699 | beside `items`, or saying nothing, `additionalItems` is taken as draft 4 has it |
| SchemaMeaning.ForbiddenItems | src/main/java/mjson/Json.java:677-678 | with `additionalItems` false and no `items`: compiled and keyword reading agree on all arrays if and only if the node has no other effective array keyword |
| SchemaMeaning.LooseSchema | src/main/java/mjson/Json.java:682-683 | with a schema under `additionalItems` and no `items`, a document must satisfy the keywords and have every element accepted by that schema |
| SchemaMeaning.EmptyArrayPasses | src/main/java/mjson/Json.java:677-678 | `{"additionalItems": false, "minItems": 1}` lets `[]` pass |
| SchemaMeaning.LooseElementRefused | src/main/java/mjson/Json.java:682-683 | `{"additionalItems": {"type": "string"}}` refuses `[null]` |
| SchemaMeaning.DependenciesMean | src/main/java/mjson/Json.java:1047-1054 | the dependency checks pass exactly when every dependency accepts |
| SchemaMeaning.BodyMeans | src/main/java/mjson/Json.java:927-1058 | for every node: if the children mean what the subschemas do, the sequence built for it passes exactly when all its keywords, read as compiled, accept; by draft 4 the same for documents that the node is regular for |
| SchemaMeaning.NodeMeans | src/main/java/mjson/Json.java:603-924 | by induction over documents and ranks, on cyclic graphs too: the compiled sequence of a node accepts what the node accepts, as compiled, and by draft 4 where the nodes are regular for the document |
| SchemaMeaning.CompiledMeans | src/main/java/mjson/Json.java:1055-1057 | the unwrapping of one-element sequences does not change what is accepted, as compiled, and by draft 4 where the nodes are regular for the document |
| SchemaMeaning.CompileSchema | src/main/java/mjson/Json.java:927-1058 | compile from an empty map, for every closed graph: for every environment, guarding rank and document, the instruction passes exactly when the keywords accept, read as compiled, or by draft 4 where all nodes are regular for the document: no array in it meets `additionalItems` with an effect and no `items`, no string holds a match of a `pattern` without being one, and where integers are asked for no number written with a fraction or an exponent is whole |
| SchemaKeywords.AcceptsIffKeywordsHold | src/main/java/mjson/Json.java:603-924 | what a node accepts, said keyword by keyword by quantifiers over the document, with the names of the types written out |
| SchemaMeaning.TypesAgreeIff | src/main/java/mjson/Json.java:800-820 | for a node with any type keyword: both readings of it agree on all documents if and only if `integer` stands beside `number` or not at all, or no number written with a fraction or an exponent is whole |
| SchemaMeaning.WholeNumberAccepted | src/main/java/mjson/Json.java:813-816 | `{"type": "integer"}` lets `1.0` pass, which draft 4 refuses |
| SchemaMeaning.PatternsAgreeIff | src/main/java/mjson/Json.java:631-643 | for a node with any keywords for strings: both readings of them agree on all strings if and only if no string of a permitted length holds a match of the pattern without being one |
| SchemaMeaning.PartialMatchRefused | src/main/java/mjson/Json.java:639 | `{"pattern": "es"}` refuses `expression`, which draft 4 accepts |
| Schemas.RegularForAll | src/main/java/mjson/Json.java:927-1058 | a node regular in its items, its pattern and its types is regular for every document |
| ArrayMerges.ArrayJson.WithSort | src/main/java/mjson/Json.java:2249-2273 | the loop that inserts into the list it scans ends, by 2*(source left)+(target left), and leaves the merge of both lists; a failing comparison leaves the list as it is then |
| ArrayMerges.ArrayJson.WithoutRepeats | src/main/java/mjson/Json.java:2274-2288 | elements that equal none of the list so far are added at its end, in order |
| ArrayMerging.SortedMerge | src/main/java/mjson/Json.java:2249-2273 | strictly increasing lists merge into a strictly increasing list that holds exactly the union |
| ArrayMerging.SortedTwice | src/main/java/mjson/Json.java:2249-2273 | for all comparable lists: merging a list twice is merging it once, whatever the target, if and only if the list is sorted, repeats allowed |
| ArrayMerging.UnsortedGrows | src/main/java/mjson/Json.java:2249-2273 | the list of two and one grows the target with every merge |
| ArrayMerging.RepeatsDecide | src/main/java/mjson/Json.java:2249-2273 | a sorted list with repeats merges into a strictly increasing one without exception and into exactly the union, and the result is strictly increasing if and only if no two neighbours that repeat each other lie off the end of the target |
| ArrayMerging.RepeatsAtTheEnd | src/main/java/mjson/Json.java:2255-2260 | the list of twice the number one: into the empty list both get in, into a list with that number none |
| ArrayMerging.AddedMeans | src/main/java/mjson/Json.java:2274-2288 | the target stays in front, what is added comes from the argument, and all of the argument is contained |
| ArrayMerging.NoRepeatsAdded | src/main/java/mjson/Json.java:2274-2288 | no added element equals one before it |
| ArrayMerging.EqualToItself | src/main/java/mjson/Json.java:2198-2215 | a value equals itself by whatever fields are compared, unless the comparison throws |
| ArrayMerging.TextOrder | src/main/java/mjson/Json.java:2218-2245 | texts are ordered by their first difference, and a beginning comes before what it begins |
| ArrayMerging.ComparedByOrder | src/main/java/mjson/Json.java:2218-2245 | two values are compared if and only if they are of one class (texts, booleans, integers that are a `long`, integers that are none, decimals), and then by the order of that class; the exception otherwise |
| ArrayMerging.SortByFieldFails | src/main/java/mjson/Json.java:2218-2245 | a merge by the order of a field goes through if and only if there is nothing to compare |
| ArrayMerging.EqualByFields | src/main/java/mjson/Json.java:2195-2215 | elements are equal by some fields if and only if at every one of them both have nothing, or both have equal values |
| ObjectMerges.CollectWithOptions | src/main/java/mjson/Json.java:1884-1915 | options are collected in their order; the first one of the wrong kind ends it |
| ObjectMerges.LastOptionDecides | src/main/java/mjson/Json.java:1884-1915 | the last option object that names a path decides all of its options |
| ObjectMerging.OptionObject | src/main/java/mjson/Json.java:1898-1912 | which fields of an option object say what, and which paths it is for |
| ObjectMerging.OptionWord | src/main/java/mjson/Json.java:1889-1896 | an option given by its name alone sets that one |
| ObjectMerges.ObjectJson.WithOptions | src/main/java/mjson/Json.java:2423-2449 | in whatever order the fields come, the merge ends without exception exactly if kinds agree along the merged paths, and gives the merged object |
| ObjectMerging.KeysUnited | src/main/java/mjson/Json.java:2423-2449 | at every merged path the keys of the result are the union of both key sets |
| ObjectMerging.MergedAt | src/main/java/mjson/Json.java:2423-2449 | below any keys along which objects are merged: an array is merged by the options of its path written with slashes, and any other value is that of the argument |
| ObjectMerging.IntoItself | src/main/java/mjson/Json.java:2423-2449 | merging an object into an equal one changes nothing, arrays marked `sort` being sorted, repeats allowed |
| ObjectMerging.Twice | src/main/java/mjson/Json.java:2423-2449 | merging the same object twice gives the same as once, for any option table and any target that it can be merged into, the arrays of the argument marked `sort` being sorted, repeats allowed |
| Pointers.ResolvePointer | src/main/java/mjson/Json.java:466-485 | the loop over the parts computes the recursive resolution, Java null and every exception included |
| Pointers.UnescapedEscaped | src/main/java/mjson/Json.java:475 | replacing `~1` first and `~0` second gives every name back |
| Pointers.OtherOrderFails | src/main/java/mjson/Json.java:475 | the other order loses the name `~1` |
| Pointers.PointerLeads | src/main/java/mjson/Json.java:466-485 | every pointer leads where its path leads once empty keys are left out |
| Pointers.ResolveInvertsPointer | src/main/java/mjson/Json.java:466-485 | for every valid path of non-empty keys and indices, escaping, joining and resolving reaches exactly the node at the path |
| Pointers.InvertedIffNamed | src/main/java/mjson/Json.java:466-485 | for every path: its pointer resolves to what the path leads to, in every document that it leads through, if and only if no key on it is empty |
| Pointers.EmptyKeyMissed | src/main/java/mjson/Json.java:473-474 | the pointer to the field with the empty name gives the whole document |
| SignalKKeys.SplitJoined | src/main/java/signalk/org/cloud_data_synch/utils/Util.java:497 | splitting at dots undoes joining |
| SignalKKeys.WordsSpelled | src/main/java/signalk/org/cloud_data_synch/utils/SignalKConstants.java:50-133 | the words of the formats, letter by letter |
| FullTrees.SetsThrough | src/main/java/signalk/org/cloud_data_synch/utils/Util.java:496-515 | `setJson` goes through unless something on the way is no object |
| FullTrees.AfterSet | src/main/java/signalk/org/cloud_data_synch/utils/Util.java:496-515 | its own path has the value, the paths above have objects, and every other path has what it had |
| FullFormat.MapToFull | src/main/java/signalk/org/cloud_data_synch/service/SignalkMapConvertor.java:246-289 | the loop in key order builds the fold of `setJson` over the entries, attributes and sentences treated apart |
| FullFormat.ParseFull | src/main/java/signalk/org/cloud_data_synch/service/SignalkMapConvertor.java:58-114 | whatever order the fields come in: each key of the result holds an entry written for it, and every entry written has its key; it fails exactly where text or an object is missing |
| FullTrees.TreeBuilt | src/main/java/signalk/org/cloud_data_synch/service/SignalkMapConvertor.java:272-287 | over prefix-free paths building never fails, and the tree holds the placed values and nothing but objects above them |
| FullTrees.GreatestKeyWins | src/main/java/signalk/org/cloud_data_synch/service/SignalkMapConvertor.java:272-287 | the tree holds at each path the entry with the greatest key for it |
| FullEntries.FullTreeShows | src/main/java/signalk/org/cloud_data_synch/service/SignalkMapConvertor.java:272-287 | the full tree of a map, said by paths and sources: at every path the entry with the greatest key, of an entry with a sentence only that, one segment below; attributes nowhere; the settings; and nothing else but what leads there |
| FullRoundTrip.WrittenByLeaf | src/main/java/signalk/org/cloud_data_synch/service/SignalkMapConvertor.java:58-114 | what is written for a tree is what is written for its leaves, provided no segment but a first is `value` |
| FullEntries.TreeBecomes | src/main/java/signalk/org/cloud_data_synch/service/SignalkMapConvertor.java:58-114 | the entries that a tree with value objects is read as, whatever the order of fields: each value object under its source with the marks that it lacks filled in, and the value objects under its `values` as they are |
| FullEntries.TreeReads | src/main/java/signalk/org/cloud_data_synch/service/SignalkMapConvertor.java:58-114 | such a tree is read without an exception if and only if the sources and times of its value objects are texts |
| FullRoundTrip.MarkBehindPath | src/main/java/signalk/org/cloud_data_synch/service/SignalkMapConvertor.java:278 | the first `.values.` of a key is the one behind its path |
| FullRoundTrip.ParseUndoesMap | src/main/java/signalk/org/cloud_data_synch/service/SignalkMapConvertor.java:58-114 | `parseFull(mapToFull(m))` is m with `self` and `version`, for readings at plain prefix-free paths |
| FullRoundTrip.RoundTrip | src/main/java/signalk/org/cloud_data_synch/service/SignalkMapConvertor.java:246-289 | the same through both methods |
| DeltaFormat.MapToDeltaMap | src/main/java/signalk/org/cloud_data_synch/service/SignalkMapConvertor.java:320-376 | files every entry that is no source and no attribute by context, time, source and path, in nested maps; fails where a mark is no text |
| DeltaFormat.GroupingConserves | src/main/java/signalk/org/cloud_data_synch/service/SignalkMapConvertor.java:320-376 | every list is exactly the entries of its class in order, and no list or map is empty |
| DeltaFormat.ListedMembers | src/main/java/signalk/org/cloud_data_synch/service/SignalkMapConvertor.java:320-376 | an entry is in the list of its class, once, and in no other |
| DeltaClasses.EntriesAreFiled | src/main/java/signalk/org/cloud_data_synch/service/SignalkMapConvertor.java:332-372 | an entry with a key of section, name, path and source is in the list of that name, of its time and source or `none`, and of that path, and in no other list |
| DeltaClasses.LeftOut | src/main/java/signalk/org/cloud_data_synch/service/SignalkMapConvertor.java:332-335 | entries whose keys begin with `sources` or end with `_attr` are in no list |
| DeltaClasses.NamedContext | src/main/java/signalk/org/cloud_data_synch/utils/Util.java:354-391 | the context of a key below `vessels`, `config` or `list.vessels` is the name that follows, with the section before it |
| DeltaClasses.OtherContext | src/main/java/signalk/org/cloud_data_synch/utils/Util.java:354-391 | any other path is its own context |
| DeltaClasses.Padded | src/main/java/signalk/org/cloud_data_synch/utils/Util.java:354-391 | white space and control characters around a path do not matter to its context |
| DeltaFormat.GenerateDelta | src/main/java/signalk/org/cloud_data_synch/service/SignalkMapConvertor.java:467-541 | the nested maps are gone through in any order of their keys: one update for each context, time and source and no other, what belongs to one context and one time being together; each holds all lists of its map once; the message has the context gone to last; time and source are gone from the entries that went in |
| DeltaClasses.MapLeftBehind | src/main/java/signalk/org/cloud_data_synch/service/SignalkMapConvertor.java:516-522 | of the map that a delta is made of, all keys stay, and every entry but sources and attributes has lost its time and its source |
| DeltaClasses.ItemSaid | src/main/java/signalk/org/cloud_data_synch/service/SignalkMapConvertor.java:511-531 | what a message says of an entry: its path below the name, and its value, or the entry itself if it is no object |
| DeltaClasses.MessageSaid | src/main/java/signalk/org/cloud_data_synch/service/SignalkMapConvertor.java:479-541 | the names under which an update has its items, its time and its source, and a message its updates and its context |
| DeltaFormat.ParseUpdate | src/main/java/signalk/org/cloud_data_synch/service/SignalkMapConvertor.java:171-207 | the items of an update become entries under their own keys; items without path or value are passed over |
| DeltaFormat.ParseDelta | src/main/java/signalk/org/cloud_data_synch/service/SignalkMapConvertor.java:124-169 | null for what is no delta; otherwise updates, puts and config in turn |
| DeltaPuts.NoDelta | src/main/java/signalk/org/cloud_data_synch/service/SignalkMapConvertor.java:134-168 | a message is none, exactly if it has `vessels`, or no context, or none of the three sections, or asks with `subscribe`, `unsubscribe` or `get` |
| DeltaPuts.ContextSent | src/main/java/signalk/org/cloud_data_synch/utils/Util.java:209-217 | the context of a message is the one sent without a dot at its end, for every identity that does not end with one |
| DeltaPuts.SectionsInTurn | src/main/java/signalk/org/cloud_data_synch/service/SignalkMapConvertor.java:148-164 | updates are taken first, then puts, and the configuration last |
| DeltaPuts.PutsAreFiled | src/main/java/signalk/org/cloud_data_synch/service/SignalkMapConvertor.java:209-233 | the puts of a vessel, any number of them: each is filed under the key of the vessel, its path, `values` and its source, without its path, with the source and the time as sent, or `unknown` and the clock |
| DeltaPuts.ItemIsFiled | src/main/java/signalk/org/cloud_data_synch/service/SignalkMapConvertor.java:171-207 | an item of an update or of a config, with or without the source and the time of its update: the key and the entry |
| DeltaRoundTrip.ContextFound | src/main/java/signalk/org/cloud_data_synch/utils/Util.java:354-391 | the context of a key below a vessel is the vessel |
| DeltaRoundTrip.ContextKept | src/main/java/signalk/org/cloud_data_synch/utils/Util.java:209-217 | `fixSelfKey` and the removed dot leave a context as it is, whatever the identity |
| DeltaRoundTrip.ItemParses | src/main/java/signalk/org/cloud_data_synch/service/SignalkMapConvertor.java:171-207 | the item made of an entry parses to the entry |
| DeltaRoundTrip.ParseUndoesGenerate | src/main/java/signalk/org/cloud_data_synch/service/SignalkMapConvertor.java:305-318 | `parseDelta(mapToUpdatesDelta(m))` and `parseDelta(mapToConfigDelta(m))` rebuild m as it was before the call, for every map of one vessel and every order of the nested maps, on top of whatever was in the map |
| DeltaRoundTrip.RoundTrip | src/main/java/signalk/org/cloud_data_synch/service/SignalkMapConvertor.java:305-318 | the same through the three methods in a row, and what is left of the map that went in: every entry without its time and source |
| DeltaContexts.ComesBackIffOneVessel | src/main/java/signalk/org/cloud_data_synch/service/SignalkMapConvertor.java:467-541 | for every map that is not empty, with readings of any vessels, and every order of the nested maps: the map comes back through the delta into an empty map if and only if all of it is of one vessel |
| DeltaContexts.TwoVesselsLost | src/main/java/signalk/org/cloud_data_synch/service/SignalkMapConvertor.java:535-538 | two readings of two vessels do not come back, whatever the order |
| DeltaRoundTrip.PutDeltaLost | src/main/java/signalk/org/cloud_data_synch/service/SignalkMapConvertor.java:209-233 | `parseDelta(mapToPutDelta(m))` loses every entry: updates stand where `parsePut` looks for a path |
| DeltaEx.MapToDeltaMapEx | src/main/java/signalk/org/cloud_data_synch/service/SignalkMapConvertor.java:378-456 | goes through if and only if all entries are listings; then for every time and source the list holds path and value of exactly the listed values that name that time and that source, in the order of their entries and places, and the times come ascending or descending as asked |
| DeltaEx.ItemCounts | src/main/java/signalk/org/cloud_data_synch/service/SignalkMapConvertor.java:402-436 | an item of a path and a value is in the list of a time and a source as often as there are places in the listings with these four texts and values |
| DeltaEx.SelectedCounts | src/main/java/signalk/org/cloud_data_synch/service/SignalkMapConvertor.java:402-436 | a list holds each item as often as it arrived for that time and source |
| Store.InfluxDbService.IsPrimary | src/main/java/signalk/org/cloud_data_synch/service/InfluxDbService.java:1564-1580 | a path without a primary source gets the one that asks; the answer is whether the source is the primary one |
| Store.InfluxDbService.SetPrimary | src/main/java/signalk/org/cloud_data_synch/service/InfluxDbService.java:1586-1589 | the source becomes the primary one of the path; the answer is whether it was not |
| Store.InfluxDbService.Save | src/main/java/signalk/org/cloud_data_synch/service/InfluxDbService.java:1443-1527 | one point in the series of the key, or the exception: what is elected and written for each kind of key |
| Store.InfluxDbService.SaveEntry | src/main/java/signalk/org/cloud_data_synch/service/InfluxDbService.java:1044-1122 | an entry is flattened into its saves in their order, up to the first exception |
| Store.InfluxDbService.LoadData | src/main/java/signalk/org/cloud_data_synch/service/InfluxDbService.java:460-605 | the series in their order fill the map: sentences, meta, sources under `values`, values and plain keys |
| StoreRuns.MarkInKey | src/main/java/signalk/org/cloud_data_synch/service/InfluxDbService.java:521-526 | the only `.values.` in the key of a value, or of a field of one, stands behind its path |
| StoreRuns.SourceReadBack | src/main/java/signalk/org/cloud_data_synch/service/InfluxDbService.java:521-547 | behind the mark stand the source and the field; what is taken for the source keeps `.value` at its end where there is a field |
| StoreRuns.SeriesDiffer | src/main/java/signalk/org/cloud_data_synch/service/InfluxDbService.java:1518-1527 | a series tells the path, the source, the field if there is one, and the primary flag it was written with |
| StoreView.EntryCalls | src/main/java/signalk/org/cloud_data_synch/service/InfluxDbService.java:1044-1122 | saving an entry makes one call for its value, or one for each field of it, under the key of the source |
| StoreNested.EntryWithOthers | src/main/java/signalk/org/cloud_data_synch/service/InfluxDbService.java:1085-1097 | an entry with other sources under `values`: their values are saved first, each by its own name and time, and then its own |
| StoreNested.RefusedEnds | src/main/java/signalk/org/cloud_data_synch/service/InfluxDbService.java:1085-1097 | the first of the other sources that is refused ends the entry, those before it being saved |
| StoreNested.OtherSourceIsLost | src/main/java/signalk/org/cloud_data_synch/service/InfluxDbService.java:543-555 | a value of another source is loaded as one of the source in the key |
| StoreSides.SideIsWritten | src/main/java/signalk/org/cloud_data_synch/service/InfluxDbService.java:1044-1122 | an entry that is a plain value or an array, a sentence, and a field of meta data are each written once, in the series of their path, by the source that was elected first |
| StoreSides.SideLoads | src/main/java/signalk/org/cloud_data_synch/service/InfluxDbService.java:500-519 | loading the series of a plain entry sets its key; that of a sentence or of a field of meta data sets a field of the entry, and of meta data an empty `meta` beside it |
| StoreSides.StorableReadsBack | src/main/java/signalk/org/cloud_data_synch/service/InfluxDbService.java:1591-1642 | a scalar, or an array, that the store can tell from other values comes back out of its column as it went in |
| StoreView.RunHolds | src/main/java/signalk/org/cloud_data_synch/service/InfluxDbService.java:1518-1580 | after any run of saves, of values and of objects, the store holds for every value or field of a source its latest point, marked primary for the first source of its path and no other, and nothing else |
| StoreMixed.MixedHolds | src/main/java/signalk/org/cloud_data_synch/service/InfluxDbService.java:1044-1122 | after any run of entries with values, objects, sentences and meta data, and of plain entries: the store holds the latest points of all of these, and nothing else |
| StoreSections.LoadSection | src/main/java/signalk/org/cloud_data_synch/service/InfluxDbService.java:433-457 | the loop over the series of an answer sets the key of each to its value, and ends at the first that cannot be read |
| StoreSections.SectionComesBack | src/main/java/signalk/org/cloud_data_synch/service/InfluxDbService.java:433-457 | after any run of saves of entries of `config`, or of `sources`, they are loaded with the keys that were saved, each with its latest value, unless the latest value of some key is null |
| StoreSections.LatestIsSaved | src/main/java/signalk/org/cloud_data_synch/service/InfluxDbService.java:1485-1500 | that latest value is what was saved last, and cannot be read if it is null |
| StoreSections.ResourceSaved | src/main/java/signalk/org/cloud_data_synch/service/InfluxDbService.java:1477-1484 | a resource is filed under its whole path, and its source is elected |
| StoreLoad.PointReadsBack | src/main/java/signalk/org/cloud_data_synch/service/InfluxDbService.java:1591-1642 | a storable scalar comes back out of its column as it went in |
| StoreLoad.GreatestTimeWins | src/main/java/signalk/org/cloud_data_synch/service/InfluxDbService.java:1518-1527 | the point of a value or field is that of its write with the greatest time |
| StoreLoad.LoadsSlot | src/main/java/signalk/org/cloud_data_synch/service/InfluxDbService.java:521-559 | for every value or field of a source, primary or not, and every readable point: what loading its series puts where, the field of a later source under the source with `.value` behind it, and exactly when it fails |
| StoreLoad.LoadGrows | src/main/java/signalk/org/cloud_data_synch/service/InfluxDbService.java:521-559 | loading one series adds its value or field to what its path shows, and changes no other path |
| StoreBack.StoreThenLoad | src/main/java/signalk/org/cloud_data_synch/service/InfluxDbService.java:460-605 | after any run of saves of values and objects into an empty store: in whatever order the series come back, each path shows the latest points of the first source to write it, and under `values` exactly the other sources with theirs, if and only if no first source mixes values with objects |
| StoreMixedBack.MixedStoreThenLoad | src/main/java/signalk/org/cloud_data_synch/service/InfluxDbService.java:460-605 | for every run of all these entries: every order of the answer loads back the values, the plain entries, the sentences and the meta data, if and only if no plain entry shares its path with values of sources and no first source mixes values with objects |
| StoreMixedBack.SideShownIsSaved | src/main/java/signalk/org/cloud_data_synch/service/InfluxDbService.java:460-605 | what is shown of a plain entry, a sentence or a field of meta data is what was saved last |
| StoreMixedBack.PlainComesBack | src/main/java/signalk/org/cloud_data_synch/service/InfluxDbService.java:1065-1083 | a plain entry saved into an empty store is all that is loaded, if and only if it is not null |
| StoreMixedBack.SaveThenLoad | src/main/java/signalk/org/cloud_data_synch/service/InfluxDbService.java:1044-1122 | the same through the service |
| StoreBack.UnderOwnIff | src/main/java/signalk/org/cloud_data_synch/service/InfluxDbService.java:521-559 | what a source wrote last comes back under that source if and only if it is no field of an object or the source was the first of its path; such a field otherwise stands under the source with `.value` behind it |
| StoreBack.ComesBackIff | src/main/java/signalk/org/cloud_data_synch/service/InfluxDbService.java:460-605 | all of the latest value of a source, scalar or fields of an object, comes back under that source if and only if it is no object or the source was the first to write its path; older fields may stand beside those of an object |
| StoreBack.ComesBackWholeIff | src/main/java/signalk/org/cloud_data_synch/service/InfluxDbService.java:460-605 | the latest value of a source is all that comes back under it if and only if it is no object, or the source was the first to write its path and sent no other field before |
| StoreBack.OlderFieldStays | src/main/java/signalk/org/cloud_data_synch/service/InfluxDbService.java:460-605 | one source sends one field and later another: both stand in what is loaded |
| StoreBack.SecondSourceMisplaced | src/main/java/signalk/org/cloud_data_synch/service/InfluxDbService.java:544-550 | two sources send the same object for one path: that of the first comes back, that of the second does not |
| StoreBack.PutIsShown | src/main/java/signalk/org/cloud_data_synch/service/InfluxDbService.java:868-905 | what is shown for a value or field of the latest save of a source is what was sent, with its time |
| Queues.CircularQueue.constructor | src/main/java/signalk/org/cloud_data_synch/utils/CircularQueue.java:57-63 | an empty queue of any capacity, zero included, with front and rear at -1 |
| Queues.CircularQueue.Enqueue | src/main/java/signalk/org/cloud_data_synch/utils/CircularQueue.java:68-81 | adds at the rear of the bounded sequence, or is the full exception and changes nothing |
| Queues.CircularQueue.Dequeue | src/main/java/signalk/org/cloud_data_synch/utils/CircularQueue.java:86-98 | takes the front of the sequence and clears its slot, or is the empty exception |
| Queues.CircularQueue.ForEach | src/main/java/signalk/org/cloud_data_synch/utils/CircularQueue.java:120-127 | hands out everything in order and leaves the queue empty |
| Queues.CircularQueue.Perform | src/main/java/signalk/org/cloud_data_synch/utils/CircularQueue.java:57-127 | through any interleaving the ring buffer answers as the bounded sequence does |
| Queues.FirstInFirstOut | src/main/java/signalk/org/cloud_data_synch/utils/CircularQueue.java:57-127 | what came out and what is inside is what was taken in, in order, within the capacity |
| Pipeline.ChosenIffFirst | src/main/java/signalk/org/cloud_data_synch/service/CloudSynchService.java:499-544 | the walk ends at a priority exactly when it is the first whose limit admits the ping |
| Pipeline.NothingLost | src/main/java/signalk/org/cloud_data_synch/service/CloudSynchService.java:490-552 | files handed over followed by files queued are the files enqueued, in order, after every run |
| Pipeline.HandoversAreFirst | src/main/java/signalk/org/cloud_data_synch/service/CloudSynchService.java:523-538 | every hand-over of a run used the first priority that admits the ping measured last, at its frequency |
| Pipeline.HandoverPing | src/main/java/signalk/org/cloud_data_synch/service/CloudSynchService.java:278-298 | the ping that a hand-over went by is the one measured last before it, and its file the first that was waiting |
| Pipeline.HandoversApart | src/main/java/signalk/org/cloud_data_synch/service/CloudSynchService.java:471-476 | the tick of a hand-over comes at least the frequency of the one before after its sending, exactly when that sum is a `long` |
| Pipeline.FrequencyUnits | src/main/java/signalk/org/cloud_data_synch/service/CloudSynchService.java:505-515 | a printed number with `m`, with `s` or with nothing behind it is that many times 60000, 1000 or 1, as a `long` |
| Pipeline.HandoversByUnit | src/main/java/signalk/org/cloud_data_synch/service/CloudSynchService.java:471-476 | for a transport set to a number of minutes, seconds or milliseconds: the next hand-over comes no earlier than that after the sending of the one before, exactly when the sum is a `long` |
| Pipeline.ChoicesApart | src/main/java/signalk/org/cloud_data_synch/service/CloudSynchService.java:526-550 | the producer is due again no earlier than the frequency after the sending, whether there was a file or not |
| Pipeline.PingsApart | src/main/java/signalk/org/cloud_data_synch/service/CloudSynchService.java:284-295 | the next ping is measured no earlier than the read frequency, and at most three minutes, after the last one or after a choice of a transport since |
| Pipeline.FrequencyLeft | src/main/java/signalk/org/cloud_data_synch/service/CloudSynchService.java:499-515 | a walk that finds no transport leaves the frequency of the lowest priority, one that breaks off that of the priority before |
| Pipeline.TakenIn | src/main/java/signalk/org/cloud_data_synch/service/CloudSynchService.java:88 | a file is taken in exactly if fewer than a thousand are waiting |
| Pipeline.OverflowHandsOverAtOnce | src/main/java/signalk/org/cloud_data_synch/service/CloudSynchService.java:471-476 | with the greatest frequency that parses the sum overflows, and two files go out at the same reading of the clock |
| Pipeline.ProducerGoesOn | src/main/java/signalk/org/cloud_data_synch/service/CloudSynchService.java:499-515 | with priorities from 1 without gaps and frequencies that parse the producer never stops |
| SynchService.CloudSynchService.Produce | src/main/java/signalk/org/cloud_data_synch/service/CloudSynchService.java:490-552 | one production: state, hand-over and exception as by the specification, through the loop over the priorities |
| SynchService.CloudSynchService.PingTick | src/main/java/signalk/org/cloud_data_synch/service/CloudSynchService.java:278-298 | one tick of the pinger: measures, stops on failure, sets the next time |
| SynchService.CloudSynchService.ProducerTick | src/main/java/signalk/org/cloud_data_synch/service/CloudSynchService.java:471-486 | one tick of the producer: nothing before its time, and stopped for good by an exception |
| SynchService.CloudSynchService.Serve | src/main/java/signalk/org/cloud_data_synch/service/CloudSynchService.java:490-552 | through any order of ticks and files the service goes through the states of the run |

## Left out

- Numbers.ReadPrintedDecimal: numbers with a fraction are their literals; the normalisation of `Double` and `BigDecimal`, and exponents out of the range of `BigDecimal`, are not modelled.
- HeapPrinter.PrintNode: the bound `maxCharacters` of previews is taken as unlimited; nothing is cut but repeated objects.
- HeapPrinter.PrintNode: printing changes no node, so the graph is a constant map; parents and their bookkeeping are not modelled.
- SchemaCompiler.Compiler.Compile: schema keywords are typed, so a keyword of the wrong kind, which makes `compile` throw, is not modelled; references are taken as expanded, since `expandReferences` needs URIs and fetching.
- SchemaMeaning.CompileSchema: error messages are reduced to whether there are any; numbers are compared as reals, regular expressions are uninterpreted, and document sizes fit an `int`.
- SchemaMeaning.CompileSchema: cycles of subschemas that judge the same document are excluded; validation itself would not end on them.
- ArrayMerges.ArrayJson.WithSort: merging a list into itself, copying under `dup`, and parents are not modelled; values stand for references. `Integer` and `Long` are not told apart, nor `Double` and `BigDecimal`.
- ObjectMerges.ObjectJson.WithOptions: which exception ends a merge, and what was merged before it, depends on the order of fields and is left open; the caller's option objects are not changed.
- FullFormat.MapToFull: the reader is taken to have access to all keys; the filter by allowed paths is left out.
- FullFormat.ParseFull: when two fields write the same key, which of the two stays is left open, as it depends on the order of the map.
- DeltaFormat.ParseDelta: the identity is matched as a literal text, not as a regular expression.
- DeltaEx.MapToDeltaMapEx: an object in place of the list under `values` is taken as unsupported.
- Store.InfluxDbService.Save: writing is taken as enabled; the side effect on the configuration of a key under `config` is left out.
- Store.InfluxDbService.LoadData: answers have one row for each series; aggregated answers and array values of a primary source are not part of the model.
- Store.InfluxDbService.LoadData: `loadResources` is not part of the model; `loadConfig` and `loadSources` are `StoreSections.LoadSection`.
- StoreMixedBack.MixedStoreThenLoad: entries with `values` of their own, arrays as values of sources, and objects inside an object value are saved by the model, but the runs are not made of them; names of fields have no dot in them.
- StoreBack.StoreThenLoad: the runs are of values and objects; those of `MixedStoreThenLoad` have the other entries too. The node of an object value shows the time of one of its fields, as it depends on the order of the series which one.
- StoreBack.ComesBackIff: an object value without fields is not saved at all, so nothing is said of it.
- Pipeline.NothingLost: ticks are atomic steps; interleavings of threads on the unsynchronised queue are not modelled.
- Netty, Artemis and Atmosphere handlers, REST services, copying, zipping, git and npm: plumbing over libraries that are not part of this model.
- `fetchContent`, `makeAbsolute`, `resolveRef`: network and `java.net.URI`.
- Authentication, tokens and passwords.
- `findNodeMatch`, unit conversions and the NMEA hooks: table lookups and formulas for the instruments of a boat, which neither the formats nor the store depend on.
