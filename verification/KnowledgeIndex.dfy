/** The vector-store mirror of plant knowledge: stable chunk keys, replace-all indexing, deletion by source. */
module KnowledgeIndex {
  import opened Wrappers
  import opened Characters
  import opened OrderNumbers
  import opened TextRules

  predicate NoColon(s: string) {
    ':' !in s
  }

  /** The key of a plant row as text. */
  type SourceId = s: string | NoColon(s) witness ""

  // ----- Chunk keys -----

  predicate NotKeyChar(c: char) {
    !('a' <= c <= 'z' || '0' <= c <= '9')
  }

  /** `_section_chunk_key`, from the section label once it is decomposed, stripped of accents and lower-cased. */
  function SectionKey(folded: Option<string>): string {
    if folded.None? || folded.value == "" then "body"
    else
      var slug := Strip(IsDash, RunsToDash(NotKeyChar, folded.value));
      var key := if slug != "" then slug else "body";
      if |key| <= 80 then key else key[..80]
  }

  lemma {:induction false} RunsToDashChars(s: string)
    ensures forall c :: c in RunsToDash(NotKeyChar, s) ==> IsSlugChar(c)
    decreases |s|
  {
    if s != "" {
      if NotKeyChar(s[0]) {
        RunsToDashChars(StripLeft(NotKeyChar, s));
      } else {
        RunsToDashChars(s[1..]);
      }
    }
  }

  /** Section keys never hold a colon, whatever the label. */
  lemma SectionKeyShape(folded: Option<string>)
    ensures 1 <= |SectionKey(folded)| <= 80
    ensures forall c :: c in SectionKey(folded) ==> IsSlugChar(c)
  {
    hide RunsToDash, Strip;
    if folded.Some? && folded.value != "" {
      var dashed := RunsToDash(NotKeyChar, folded.value);
      RunsToDashChars(folded.value);
      var i := StripOccurs(IsDash, dashed);
      var slug := Strip(IsDash, dashed);
      assert forall c :: c in slug ==> c in dashed;
    }
  }

  datatype Locale = En | Vi

  function LocaleText(locale: Locale): string {
    match locale
    case En => "en"
    case Vi => "vi"
  }

  /** One prepared piece of text. */
  datatype Chunk = Chunk(locale: Locale, section: Option<string>, content: string)

  datatype Object = Object(key: string, source: SourceId, content: string)

  function ObjectKey(source: SourceId, section: string, index: nat, locale: Locale): string {
    "plant" + ":" + source + ":" + (section + ":" + Numeral(index)) + ":" + LocaleText(locale)
  }

  predicate SameCounter(a: Chunk, b: Chunk) {
    a.locale == b.locale && SectionKey(a.section) == SectionKey(b.section)
  }

  /** How many of the chunks share the counter of `c`. */
  function Earlier(chunks: seq<Chunk>, c: Chunk): nat {
    if chunks == [] then 0
    else Earlier(chunks[..|chunks| - 1], c) + if SameCounter(chunks[|chunks| - 1], c) then 1 else 0
  }

  function ObjectAt(source: SourceId, chunks: seq<Chunk>, i: nat): Object
    requires i < |chunks|
  {
    var c := chunks[i];
    Object(ObjectKey(source, SectionKey(c.section), Earlier(chunks[..i], c), c.locale), source, c.content)
  }

  function Objects(source: SourceId, chunks: seq<Chunk>): (r: seq<Object>)
    ensures |r| == |chunks|
    ensures forall i :: 0 <= i < |chunks| ==> r[i] == ObjectAt(source, chunks, i)
  {
    seq(|chunks|, i requires 0 <= i < |chunks| => ObjectAt(source, chunks, i))
  }

  /** The loop with its dictionary of counters. */
  method PlantObjects(source: SourceId, chunks: seq<Chunk>) returns (objects: seq<Object>)
    ensures objects == Objects(source, chunks)
  {
    hide SectionKey, ObjectKey;
    var counters: map<(Locale, string), nat> := map[];
    objects := [];
    for i := 0 to |chunks|
      invariant |objects| == i
      invariant forall j :: 0 <= j < i ==> objects[j] == ObjectAt(source, chunks, j)
      invariant forall c: Chunk ::
                  Earlier(chunks[..i], c) ==
                  if (c.locale, SectionKey(c.section)) in counters then
                     counters[(c.locale, SectionKey(c.section))] else 0
    {
      var chunk := chunks[i];
      var counterKey := (chunk.locale, SectionKey(chunk.section));
      var index := if counterKey in counters then counters[counterKey] else 0;
      assert chunks[..i + 1][..i] == chunks[..i];
      counters := counters[counterKey := index + 1];
      objects := objects + [Object(ObjectKey(source, counterKey.1, index, chunk.locale), source, chunk.content)];
    }
  }

  // ----- Keys never collide -----

  /** Text before the first colon, and text after it, can be read back. */
  lemma {:induction false} SplitAtColon(a: string, b: string, c: string, d: string)
    requires NoColon(a) && NoColon(c) && a + ":" + b == c + ":" + d
    ensures a == c && b == d
  {
    var l, r := a + ":" + b, c + ":" + d;
    assert l[|a|] == ':' && r[|c|] == ':';
    assert l[..|a|] == a && r[..|c|] == c;
    assert l[|a| + 1..] == b && r[|c| + 1..] == d;
  }

  lemma NumeralInjective(a: nat, b: nat)
    requires Numeral(a) == Numeral(b)
    ensures a == b
  {
    ValueOfNumeral(a);
    ValueOfNumeral(b);
  }

  lemma DigitsNoColon(s: string)
    requires AllDigits(s)
    ensures NoColon(s)
  {
  }

  /** The identity behind a key can be read off the key. */
  lemma {:induction false} KeyInjective(
    s1: SourceId, k1: string, i1: nat, l1: Locale, s2: SourceId, k2: string, i2: nat, l2: Locale)
    requires NoColon(k1) && NoColon(k2)
    requires ObjectKey(s1, k1, i1, l1) == ObjectKey(s2, k2, i2, l2)
    ensures s1 == s2 && k1 == k2 && i1 == i2 && l1 == l2
  {
    hide Numeral;
    DigitsNoColon(Numeral(i1));
    DigitsNoColon(Numeral(i2));
    var t1, t2 := LocaleText(l1), LocaleText(l2);
    var n1, n2 := Numeral(i1) + ":" + t1, Numeral(i2) + ":" + t2;
    var m1, m2 := k1 + ":" + n1, k2 + ":" + n2;
    var o1, o2 := s1 + ":" + m1, s2 + ":" + m2;
    assert ObjectKey(s1, k1, i1, l1) == "plant" + ":" + o1;
    assert ObjectKey(s2, k2, i2, l2) == "plant" + ":" + o2;
    SplitAtColon("plant", o1, "plant", o2);
    SplitAtColon(s1, m1, s2, m2);
    SplitAtColon(k1, n1, k2, n2);
    SplitAtColon(Numeral(i1), t1, Numeral(i2), t2);
    NumeralInjective(i1, i2);
  }

  lemma {:induction false} EarlierGrows(chunks: seq<Chunk>, i: nat, j: nat)
    requires i < j <= |chunks|
    ensures Earlier(chunks[..i], chunks[i]) < Earlier(chunks[..j], chunks[i])
    decreases j
  {
    hide SectionKey;
    assert chunks[..j][..j - 1] == chunks[..j - 1];
    if i < j - 1 {
      EarlierGrows(chunks, i, j - 1);
    }
  }

  lemma {:induction false} EarlierSame(chunks: seq<Chunk>, c: Chunk, d: Chunk)
    requires SameCounter(c, d)
    ensures Earlier(chunks, c) == Earlier(chunks, d)
  {
    hide SectionKey;
    if chunks != [] {
      EarlierSame(chunks[..|chunks| - 1], c, d);
    }
  }

  lemma SectionNoColon(c: Chunk)
    ensures NoColon(SectionKey(c.section))
  {
    hide SectionKey;
    SectionKeyShape(c.section);
  }

  /** Two chunks share a key only if they are the same chunk of the same plant. */
  lemma {:induction false} KeysNeverCollide(
    s1: SourceId, chunks1: seq<Chunk>, i: nat, s2: SourceId, chunks2: seq<Chunk>, j: nat)
    requires i < |chunks1| && j < |chunks2|
    requires ObjectAt(s1, chunks1, i).key == ObjectAt(s2, chunks2, j).key
    ensures s1 == s2
    ensures chunks1 == chunks2 ==> i == j
  {
    hide SectionKey, ObjectKey;
    var c, d := chunks1[i], chunks2[j];
    SectionNoColon(c);
    SectionNoColon(d);
    KeyInjective(s1, SectionKey(c.section), Earlier(chunks1[..i], c), c.locale,
                 s2, SectionKey(d.section), Earlier(chunks2[..j], d), d.locale);
    if chunks1 == chunks2 && i != j {
      var lo, hi := if i < j then i else j, if i < j then j else i;
      EarlierGrows(chunks1, lo, hi);
      EarlierSame(chunks1[..hi], chunks1[lo], chunks1[hi]);
    }
  }

  // ----- The store -----

  type Store = map<string, Object>

  function DeleteBySource(store: Store, source: SourceId): Store {
    map k | k in store && store[k].source != source :: store[k]
  }

  /** Objects without content are dropped; an object with a known key replaces the old one. */
  function Upsert(store: Store, objects: seq<Object>): Store {
    if objects == [] then store
    else
      var last := objects[|objects| - 1];
      var before := Upsert(store, objects[..|objects| - 1]);
      if last.content == "" then before else before[last.key := last]
  }

  datatype PlantDoc = PlantDoc(isActive: bool, chunks: seq<Chunk>)

  /** A successful `sync_plant_knowledge`. */
  function Sync(store: Store, source: SourceId, doc: PlantDoc): Store {
    var cleared := DeleteBySource(store, source);
    if doc.isActive then Upsert(cleared, Objects(source, doc.chunks)) else cleared
  }

  class KnowledgeStore {
    var store: Store

    constructor ()
      ensures store == map[]
    {
      store := map[];
    }

    method InsertMany(objects: seq<Object>) returns (count: nat)
      modifies this
      ensures store == Upsert(old(store), objects)
      ensures count == |Kept(objects)|
    {
      ghost var before := store;
      count := 0;
      for i := 0 to |objects|
        invariant store == Upsert(before, objects[..i])
        invariant count == |Kept(objects[..i])|
      {
        assert objects[..i + 1][..i] == objects[..i];
        if objects[i].content != "" {
          store := store[objects[i].key := objects[i]];
          count := count + 1;
        }
      }
      assert objects[..|objects|] == objects;
    }

    /** `index_plant` with the store enabled and every call to it succeeding; returns the object count. */
    method IndexPlant(source: SourceId, doc: PlantDoc) returns (count: nat)
      modifies this
      ensures store == Sync(old(store), source, doc)
      ensures count == if doc.isActive then |Kept(Objects(source, doc.chunks))| else 0
    {
      hide Upsert, Kept, ObjectAt;
      if !doc.isActive {
        store := DeleteBySource(store, source);
        return 0;
      }
      var objects := PlantObjects(source, doc.chunks);
      store := DeleteBySource(store, source);
      count := InsertMany(objects);
    }
  }

  function Kept(objects: seq<Object>): seq<Object> {
    if objects == [] then []
    else
      var last := objects[|objects| - 1];
      Kept(objects[..|objects| - 1]) + if last.content == "" then [] else [last]
  }

  // ----- The store mirrors the plants -----

  /** `o` is an indexed piece of the plant. */
  ghost predicate PieceOf(source: SourceId, doc: PlantDoc, o: Object) {
    doc.isActive && o.content != "" && exists i :: 0 <= i < |doc.chunks| && o == ObjectAt(source, doc.chunks, i)
  }

  /** The store holds exactly the pieces of the given plants, each under its key. */
  ghost predicate Mirrors(store: Store, docs: map<SourceId, PlantDoc>) {
    forall k: string, o: Object ::
      (k in store && store[k] == o) <==> (o.key == k && o.source in docs && PieceOf(o.source, docs[o.source], o))
  }

  lemma {:induction false} UpsertHolds(store: Store, objects: seq<Object>, k: string, o: Object)
    requires forall i, j :: 0 <= i < j < |objects| ==> objects[i].key != objects[j].key
    requires forall i :: 0 <= i < |objects| ==> objects[i].key !in store
    ensures (k in Upsert(store, objects) && Upsert(store, objects)[k] == o) <==>
            (k in store && store[k] == o) || (o.key == k && o in objects && o.content != "")
  {
    if objects != [] {
      var init, last := objects[..|objects| - 1], objects[|objects| - 1];
      UpsertHolds(store, init, k, o);
      assert objects == init + [last];
      if k == last.key {
        assert o in init ==> o.key != k;
        UpsertHolds(store, init, last.key, last);
      }
    }
  }

  /** A sync replaces the pieces of its plant and leaves every other plant's pieces alone. */
  lemma {:induction false} SyncMirrors(store: Store, docs: map<SourceId, PlantDoc>, source: SourceId, doc: PlantDoc)
    requires Mirrors(store, docs)
    ensures Mirrors(Sync(store, source, doc), docs[source := doc])
  {
    hide ObjectAt, Upsert;
    var cleared, objects := DeleteBySource(store, source), Objects(source, doc.chunks);
    var docs1 := docs[source := doc];
    forall i, j | 0 <= i < j < |objects|
      ensures objects[i].key != objects[j].key
    {
      if objects[i].key == objects[j].key {
        KeysNeverCollide(source, doc.chunks, i, source, doc.chunks, j);
      }
    }
    forall i | 0 <= i < |objects|
      ensures objects[i].key !in cleared
    {
      if objects[i].key in cleared {
        var other := cleared[objects[i].key];
        assert PieceOf(other.source, docs[other.source], other);
        var j :| 0 <= j < |docs[other.source].chunks| && other == ObjectAt(other.source, docs[other.source].chunks, j);
        KeysNeverCollide(source, doc.chunks, i, other.source, docs[other.source].chunks, j);
      }
    }
    forall k: string, o: Object
      ensures (k in Sync(store, source, doc) && Sync(store, source, doc)[k] == o) <==>
              (o.key == k && o.source in docs1 && PieceOf(o.source, docs1[o.source], o))
    {
      UpsertHolds(cleared, objects, k, o);
      SourceOfPiece(source, doc.chunks);
      assert o in objects <==> exists i :: 0 <= i < |doc.chunks| && o == ObjectAt(source, doc.chunks, i);
    }
  }

  lemma SourceOfPiece(source: SourceId, chunks: seq<Chunk>)
    ensures forall i :: 0 <= i < |chunks| ==> ObjectAt(source, chunks, i).source == source
  {
  }

  function RunSyncs(es: seq<(SourceId, PlantDoc)>): Store {
    if es == [] then map[] else Sync(RunSyncs(es[..|es| - 1]), es[|es| - 1].0, es[|es| - 1].1)
  }

  /** Each plant as it was when it was last synced. */
  function LastDocs(es: seq<(SourceId, PlantDoc)>): map<SourceId, PlantDoc> {
    if es == [] then map[] else LastDocs(es[..|es| - 1])[es[|es| - 1].0 := es[|es| - 1].1]
  }

  /** After any run of syncs the store is the union of the pieces of the active plants. */
  lemma {:induction false} StoreMirrorsPlants(es: seq<(SourceId, PlantDoc)>)
    ensures Mirrors(RunSyncs(es), LastDocs(es))
  {
    hide Sync, PieceOf;
    if es != [] {
      StoreMirrorsPlants(es[..|es| - 1]);
      SyncMirrors(RunSyncs(es[..|es| - 1]), LastDocs(es[..|es| - 1]), es[|es| - 1].0, es[|es| - 1].1);
    }
  }

  /** Two stores that mirror the same plants are equal. */
  lemma MirrorUnique(a: Store, b: Store, docs: map<SourceId, PlantDoc>)
    requires Mirrors(a, docs) && Mirrors(b, docs)
    ensures a == b
  {
    hide PieceOf;
    forall k
      ensures k in a ==> k in b && b[k] == a[k]
      ensures k in b ==> k in a && a[k] == b[k]
    {
      if k in a {
        assert PieceOf(a[k].source, docs[a[k].source], a[k]);
      }
      if k in b {
        assert PieceOf(b[k].source, docs[b[k].source], b[k]);
      }
    }
  }

  /** Syncing a plant again as it is changes nothing. */
  lemma {:induction false} ResyncIsIdentity(es: seq<(SourceId, PlantDoc)>, source: SourceId)
    requires source in LastDocs(es)
    ensures Sync(RunSyncs(es), source, LastDocs(es)[source]) == RunSyncs(es)
  {
    hide Sync, Mirrors;
    StoreMirrorsPlants(es);
    var docs := LastDocs(es);
    SyncMirrors(RunSyncs(es), docs, source, docs[source]);
    assert docs[source := docs[source]] == docs;
    MirrorUnique(Sync(RunSyncs(es), source, docs[source]), RunSyncs(es), docs);
  }
}
