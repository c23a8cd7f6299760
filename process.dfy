/** The entity job: under the PROCESS lock, take the posts queued for entity
    extraction in batches of 500, extract up to ten keywords from each
    post's title and description, store them, queue every post that got a
    keyword for similarity scoring, and drop the batch from the entity
    queue. The language model is a parameter: it turns a text into its
    named-entity spans, each a sequence of tokens with their attributes. */
module Process {
  import opened Common
  import opened Models
  import opened Locks

  /** A PROCESS lock younger than this many minutes means a run is in progress. */
  const LockTimeout: int := 8

  /** How many queued posts one commit covers. */
  const BatchSize: nat := 500

  /** How many keywords a post keeps at most. */
  const MostCommonLimit: nat := 10

  /** Entity types whose tokens are never keywords. */
  const Excludes: seq<string> := ["LANGUAGE", "DATE", "TIME", "PERCENT", "MONEY", "QUANTITY", "ORDINAL", "CARDINAL"]

  // === Cleaning ===

  /** The characters the whitespace pattern matches in ASCII text: tab,
      line feed, vertical tab, form feed, carriage return, the four
      information separators and the space. */
  predicate IsSpace(c: char) {
    9 <= c as int <= 13 || 28 <= c as int <= 32
  }

  predicate IsAscii(c: char) {
    c as int < 128
  }

  /** Encoding to ASCII while ignoring errors drops every other character. */
  function AsciiOnly(s: string): (r: string)
    ensures forall c :: c in r <==> c in s && IsAscii(c)
  {
    Filter(s, (c: char) => IsAscii(c))
  }

  /** Every slash directly followed by a line feed becomes one space, scanning left to right. */
  function ReplaceSlashNewline(s: string): (r: string)
    ensures forall c :: c in r ==> c in s || c == ' '
    decreases |s|
  {
    if |s| >= 2 && s[0] == '/' && s[1] == '\n' then " " + ReplaceSlashNewline(s[2..])
    else if s == [] then []
    else [s[0]] + ReplaceSlashNewline(s[1..])
  }

  /** `s` without its leading whitespace. */
  function DropSpaces(s: string): (r: string)
    ensures |r| <= |s| && r == s[|s| - |r|..]
    ensures r == [] || !IsSpace(r[0])
  {
    if s != [] && IsSpace(s[0]) then DropSpaces(s[1..]) else s
  }

  /** Every run of whitespace becomes one space. */
  function Collapse(s: string): (r: string)
    ensures forall c :: c in r ==> (c in s && !IsSpace(c)) || c == ' '
    ensures s != [] && !IsSpace(s[0]) ==> r != [] && r[0] == s[0]
    ensures forall i :: 0 <= i < |r| - 1 ==> !(IsSpace(r[i]) && IsSpace(r[i + 1]))
    decreases |s|
  {
    if s == [] then []
    else if IsSpace(s[0]) then
      var rest := DropSpaces(s[1..]);
      assert forall c :: c in rest ==> c in s;
      var t := Collapse(rest);
      NoAdjacentSpacesCons(' ', t);
      " " + t
    else
      var t := Collapse(s[1..]);
      NoAdjacentSpacesCons(s[0], t);
      [s[0]] + t
  }

  /** A character put in front of a string with no adjacent whitespace keeps it so,
      unless both it and the string's first character are whitespace. */
  lemma NoAdjacentSpacesCons(c: char, t: string)
    requires forall i :: 0 <= i < |t| - 1 ==> !(IsSpace(t[i]) && IsSpace(t[i + 1]))
    requires IsSpace(c) ==> t == [] || !IsSpace(t[0])
    ensures forall i :: 0 <= i < |[c] + t| - 1 ==> !(IsSpace(([c] + t)[i]) && IsSpace(([c] + t)[i + 1]))
  {
    var r := [c] + t;
    forall i | 0 <= i < |r| - 1
      ensures !(IsSpace(r[i]) && IsSpace(r[i + 1]))
    {
      assert r[i + 1] == t[i];
      if i > 0 {
        assert r[i] == t[i - 1];
      }
    }
  }

  /** `clean`: ASCII only, slash-newlines and whitespace runs turned into single spaces. */
  function Clean(text: string): (r: string)
    ensures forall i :: 0 <= i < |r| ==> IsAscii(r[i])
    ensures forall i :: 0 <= i < |r| - 1 ==> !(IsSpace(r[i]) && IsSpace(r[i + 1]))
    ensures forall i :: 0 <= i < |r| && IsSpace(r[i]) ==> r[i] == ' '
  {
    Collapse(ReplaceSlashNewline(AsciiOnly(text)))
  }

  lemma {:induction false} FilterAllKept(s: string)
    requires forall i :: 0 <= i < |s| ==> IsAscii(s[i])
    ensures AsciiOnly(s) == s
  {
    if s != [] {
      FilterAllKept(s[1..]);
    }
  }

  lemma {:induction false} NoSlashNewlineKept(s: string)
    requires forall i :: 0 <= i < |s| ==> s[i] != '\n'
    ensures ReplaceSlashNewline(s) == s
    decreases |s|
  {
    if s != [] {
      NoSlashNewlineKept(s[1..]);
    }
  }

  /** A string that is already collapsed is its own collapse. */
  lemma {:induction false} CollapsedKept(s: string)
    requires forall i :: 0 <= i < |s| - 1 ==> !(IsSpace(s[i]) && IsSpace(s[i + 1]))
    requires forall i :: 0 <= i < |s| && IsSpace(s[i]) ==> s[i] == ' '
    ensures Collapse(s) == s
    decreases |s|
  {
    if s != [] {
      if IsSpace(s[0]) {
        assert DropSpaces(s[1..]) == s[1..];
      }
      CollapsedKept(s[1..]);
    }
  }

  /** Cleaning is idempotent. */
  lemma CleanIdempotent(text: string)
    ensures Clean(Clean(text)) == Clean(text)
  {
    var c := Clean(text);
    FilterAllKept(c);
    NoSlashNewlineKept(c);
    CollapsedKept(c);
  }

  // === Extraction ===

  /** A token of the language model, with the attributes the job reads. */
  datatype Token = Token(text: string, lemmaForm: string, isPunct: bool, isStop: bool, isDigit: bool, entType: string)

  /** The characters of the standard punctuation set. */
  predicate IsPunctuation(c: char) {
    33 <= c as int <= 47 || 58 <= c as int <= 64 || 91 <= c as int <= 96 || 123 <= c as int <= 126
  }

  predicate IsUpper(c: char) {
    'A' <= c <= 'Z'
  }

  /** Lower-casing, on the ASCII letters. */
  function Lower(s: string): (r: string)
    ensures |r| == |s|
    ensures forall i :: 0 <= i < |r| ==> !IsUpper(r[i])
    ensures forall i :: 0 <= i < |s| && !IsUpper(s[i]) ==> r[i] == s[i]
  {
    seq(|s|, i requires 0 <= i < |s| => if IsUpper(s[i]) then (s[i] as int + 32) as char else s[i])
  }

  /** The keyword a kept token contributes: its lemma, lower-cased, without punctuation. */
  function Keyword(t: Token): (w: string)
    ensures forall c :: c in w ==> !IsUpper(c) && !IsPunctuation(c)
  {
    Filter(Lower(t.lemmaForm), (c: char) => !IsPunctuation(c))
  }

  /** The token filter: between 2 and 40 characters, not punctuation, stop
      word or number, and not of an excluded entity type. */
  predicate Keep(t: Token) {
    2 <= |t.text| <= 40 && !t.isPunct && !t.isStop && !t.isDigit && t.entType !in Excludes
  }

  /** The keywords of one span, in token order. */
  function SpanKeywords(span: seq<Token>): seq<string>
    decreases |span|
  {
    if span == [] then []
    else SpanKeywords(span[..|span| - 1]) + (if Keep(span[|span| - 1]) then [Keyword(span[|span| - 1])] else [])
  }

  /** The keywords of all spans, in document order. */
  function Keywords(spans: seq<seq<Token>>): seq<string>
    decreases |spans|
  {
    if spans == [] then [] else Keywords(spans[..|spans| - 1]) + SpanKeywords(spans[|spans| - 1])
  }

  lemma {:induction false} SpanKeywordsMembers(span: seq<Token>)
    ensures forall w :: w in SpanKeywords(span) <==> exists t :: t in span && Keep(t) && Keyword(t) == w
    decreases |span|
  {
    if span != [] {
      var init := span[..|span| - 1];
      SpanKeywordsMembers(init);
      assert span == init + [span[|span| - 1]];
      forall w | w in SpanKeywords(span)
        ensures exists t :: t in span && Keep(t) && Keyword(t) == w
      {
        if w in SpanKeywords(init) {
          var t :| t in init && Keep(t) && Keyword(t) == w;
          assert t in span;
        }
      }
    }
  }

  /** The document's keywords are those of its spans. */
  lemma {:induction false} KeywordsSpans(spans: seq<seq<Token>>, w: string)
    ensures w in Keywords(spans) <==> exists i :: 0 <= i < |spans| && w in SpanKeywords(spans[i])
    decreases |spans|
  {
    if spans != [] {
      var init := spans[..|spans| - 1];
      KeywordsSpans(init, w);
      if w in Keywords(init) {
        var i :| 0 <= i < |init| && w in SpanKeywords(init[i]);
        assert spans[i] == init[i];
      } else if w !in SpanKeywords(spans[|spans| - 1]) {
        forall i | 0 <= i < |spans|
          ensures w !in SpanKeywords(spans[i])
        {
          if i < |init| {
            assert spans[i] == init[i];
          }
        }
      }
    }
  }

  /** `extract` yields exactly the keywords of the kept tokens of the entity spans. */
  lemma KeywordsMembers(spans: seq<seq<Token>>, w: string)
    ensures w in Keywords(spans) <==> exists i, t :: 0 <= i < |spans| && t in spans[i] && Keep(t) && Keyword(t) == w
  {
    KeywordsSpans(spans, w);
    forall i | 0 <= i < |spans| {
      SpanKeywordsMembers(spans[i]);
    }
  }

  /** `extract`: the model's spans of `text`, token by token through the filter. */
  method Extract(nlp: string -> seq<seq<Token>>, text: string) returns (entities: seq<string>)
    ensures entities == Keywords(nlp(text))
  {
    entities := [];
    var doc := nlp(text);
    var i := 0;
    while i < |doc|
      invariant 0 <= i <= |doc|
      invariant entities == Keywords(doc[..i])
    {
      var span := doc[i];
      var j := 0;
      ghost var before := entities;
      while j < |span|
        invariant 0 <= j <= |span|
        invariant entities == before + SpanKeywords(span[..j])
      {
        var token := span[j];
        assert span[..j + 1][..j] == span[..j];
        j := j + 1;
        if |token.text| < 2 || |token.text| > 40 {
          continue;
        }
        if token.isPunct || token.isStop || token.isDigit {
          continue;
        }
        if token.entType in Excludes {
          continue;
        }
        var entity := Lower(token.lemmaForm);
        entities := entities + [Filter(entity, (c: char) => !IsPunctuation(c))];
      }
      assert span[..j] == span;
      assert doc[..i + 1][..i] == doc[..i];
      i := i + 1;
    }
    assert doc[..i] == doc;
  }

  // === Counting ===

  /** A word counter that remembers the order in which words first appeared. */
  datatype Counter = Counter(order: seq<string>, counts: map<string, nat>)

  ghost predicate ValidCounter(c: Counter) {
    Distinct(c.order) && (forall w :: w in c.order <==> w in c.counts) && (forall w :: w in c.counts ==> c.counts[w] > 0)
  }

  /** One more occurrence of `w`. */
  function Tally(c: Counter, w: string): Counter {
    if w in c.counts then Counter(c.order, c.counts[w := c.counts[w] + 1])
    else Counter(c.order + [w], c.counts[w := 1])
  }

  /** The counter of a word list. */
  function CounterOf(words: seq<string>): (c: Counter)
    ensures ValidCounter(c)
    decreases |words|
  {
    if words == [] then Counter([], map[])
    else Tally(CounterOf(words[..|words| - 1]), words[|words| - 1])
  }

  /** The counter holds the words of the list, each with its number of occurrences. */
  lemma {:induction false} CounterOfCounts(words: seq<string>)
    ensures forall w :: w in CounterOf(words).counts <==> w in words
    ensures forall w :: w in CounterOf(words).counts ==> CounterOf(words).counts[w] == multiset(words)[w]
    decreases |words|
  {
    if words != [] {
      var init := words[..|words| - 1];
      assert words == init + [words[|words| - 1]];
      CounterOfCounts(init);
    }
  }

  /** The counter of a list grown by one word. */
  lemma CounterSnoc(words: seq<string>, i: nat)
    requires i < |words|
    ensures CounterOf(words[..i + 1]) == Tally(CounterOf(words[..i]), words[i])
  {
    var grown := words[..i + 1];
    assert grown[..|grown| - 1] == words[..i];
  }

  /** The counting loop of the job. */
  method CountWords(words: seq<string>) returns (c: Counter)
    ensures c == CounterOf(words)
  {
    c := Counter([], map[]);
    var i := 0;
    while i < |words|
      invariant 0 <= i <= |words|
      invariant c == CounterOf(words[..i])
    {
      var word := words[i];
      CounterSnoc(words, i);
      if word in c.counts {
        c := Counter(c.order, c.counts[word := c.counts[word] + 1]);
      } else {
        c := Counter(c.order + [word], c.counts[word := 1]);
      }
      i := i + 1;
    }
    assert words[..i] == words;
  }

  /** The position of the first word with the highest count. */
  function FirstMax(order: seq<string>, counts: map<string, nat>): (i: nat)
    requires order != [] && forall k :: 0 <= k < |order| ==> order[k] in counts
    ensures i < |order|
    ensures forall k :: 0 <= k < |order| ==> counts[order[k]] <= counts[order[i]]
    ensures forall k :: 0 <= k < i ==> counts[order[k]] < counts[order[i]]
  {
    if |order| == 1 then 0
    else
      var j := FirstMax(order[1..], counts) + 1;
      if counts[order[0]] >= counts[order[j]] then 0 else j
  }

  /** The `n` most common words, most common first; among equal counts the
      word seen first comes first. */
  function MostCommon(order: seq<string>, counts: map<string, nat>, n: nat): (r: seq<string>)
    requires forall w :: w in order ==> w in counts
    ensures |r| == Min(n, |order|)
    decreases n
  {
    if n == 0 || order == [] then []
    else
      var i := FirstMax(order, counts);
      RemoveAtMembers(order, i);
      [order[i]] + MostCommon(RemoveAt(order, i), counts, n - 1)
  }

  /** Removing one element keeps every other one. */
  lemma RemoveAtMembers(order: seq<string>, i: nat)
    requires i < |order|
    ensures forall w :: w in RemoveAt(order, i) ==> w in order
    ensures forall w :: w in order && w != order[i] ==> w in RemoveAt(order, i)
  {
    assert order == order[..i] + [order[i]] + order[i + 1..];
    assert RemoveAt(order, i) == order[..i] + order[i + 1..];
  }

  /** Removing one element of a list without repeats removes that word. */
  lemma RemoveAtDistinct(order: seq<string>, i: nat)
    requires Distinct(order) && i < |order|
    ensures Distinct(RemoveAt(order, i)) && order[i] !in RemoveAt(order, i)
  {
    var rest := RemoveAt(order, i);
    forall a, b | 0 <= a < b < |rest|
      ensures rest[a] != rest[b]
    {
      var a' := if a < i then a else a + 1;
      var b' := if b < i then b else b + 1;
      assert rest[a] == order[a'] && rest[b] == order[b'];
    }
    forall a | 0 <= a < |rest|
      ensures rest[a] != order[i]
    {
      var a' := if a < i then a else a + 1;
      assert rest[a] == order[a'];
    }
  }

  /** Every word taken comes from the list. */
  lemma {:induction false} MostCommonMembers(order: seq<string>, counts: map<string, nat>, n: nat, w: string)
    requires forall w :: w in order ==> w in counts
    requires w in MostCommon(order, counts, n)
    ensures w in order
    decreases n
  {
    var i := FirstMax(order, counts);
    var rest := RemoveAt(order, i);
    RemoveAtMembers(order, i);
    if w != order[i] {
      MostCommonMembers(rest, counts, n - 1, w);
    }
  }

  /** The words taken from a list without repeats are distinct. */
  lemma {:induction false} MostCommonDistinct(order: seq<string>, counts: map<string, nat>, n: nat)
    requires Distinct(order) && forall w :: w in order ==> w in counts
    ensures Distinct(MostCommon(order, counts, n))
    decreases n
  {
    if n != 0 && order != [] {
      var i := FirstMax(order, counts);
      var rest := RemoveAt(order, i);
      RemoveAtMembers(order, i);
      RemoveAtDistinct(order, i);
      MostCommonDistinct(rest, counts, n - 1);
      if order[i] in MostCommon(rest, counts, n - 1) {
        MostCommonMembers(rest, counts, n - 1, order[i]);
      }
      DistinctCons(order[i], MostCommon(rest, counts, n - 1));
    }
  }

  /** No word left out is more common than a word taken. */
  lemma {:induction false} MostCommonTop(order: seq<string>, counts: map<string, nat>, n: nat, w: string, v: string)
    requires forall w :: w in order ==> w in counts
    requires w in MostCommon(order, counts, n) && v in order && v !in MostCommon(order, counts, n)
    ensures w in counts && counts[v] <= counts[w]
    decreases n
  {
    MostCommonMembers(order, counts, n, w);
    var i := FirstMax(order, counts);
    var rest := RemoveAt(order, i);
    RemoveAtMembers(order, i);
    var tail := MostCommon(rest, counts, n - 1);
    assert MostCommon(order, counts, n) == [order[i]] + tail;
    if w == order[i] {
      var kv :| 0 <= kv < |order| && order[kv] == v;
      assert counts[order[kv]] <= counts[order[i]];
    } else {
      assert w in tail && v in rest && v !in tail;
      MostCommonTop(rest, counts, n - 1, w, v);
    }
  }

  /** The ten most common keywords of a cleaned text. */
  function TopKeywords(nlp: string -> seq<seq<Token>>, text: string): (r: seq<string>)
    ensures |r| <= MostCommonLimit && Distinct(r)
    ensures forall w :: w in r ==> w in Keywords(nlp(Clean(text)))
  {
    var words := Keywords(nlp(Clean(text)));
    var c := CounterOf(words);
    CounterOfCounts(words);
    MostCommonDistinct(c.order, c.counts, MostCommonLimit);
    var r := MostCommon(c.order, c.counts, MostCommonLimit);
    assert forall w | w in r :: w in words by {
      forall w | w in r ensures w in words { MostCommonMembers(c.order, c.counts, MostCommonLimit, w); }
    }
    r
  }

  /** Extraction, counting and selection for one text, as the job does them. */
  method CountTop(nlp: string -> seq<seq<Token>>, text: string) returns (words: seq<string>)
    ensures words == TopKeywords(nlp, text)
  {
    var postDoc := Extract(nlp, Clean(text));
    var counter := CountWords(postDoc);
    words := MostCommon(counter.order, counter.counts, MostCommonLimit);
  }

  /** The keywords a post keeps: none without a description, otherwise the
      ten most common keywords of its title and description. */
  function PostKeywords(p: Post, nlp: string -> seq<seq<Token>>): (r: seq<string>)
    ensures |r| <= MostCommonLimit && Distinct(r)
    ensures p.desc == "" ==> r == []
  {
    if p.desc == "" then [] else TopKeywords(nlp, p.title + ". " + p.desc)
  }

  // === Batches ===

  /** The tables the job writes. */
  datatype Store = Store(entities: seq<Entity>, entityQueue: seq<nat>, similarityQueue: seq<nat>)

  function View(db: Db): Store
    reads db
  {
    Store(db.entities, db.entityQueue, db.similarityQueue)
  }

  /** Every queued id names a stored post (the queue's foreign key). */
  ghost predicate QueueInPosts(posts: map<nat, Post>, q: seq<nat>) {
    forall i :: 0 <= i < |q| ==> q[i] in posts
  }

  /** A slice of a queue of stored posts is one too. */
  lemma SliceInPosts(posts: map<nat, Post>, q: seq<nat>, i: nat, j: nat)
    requires QueueInPosts(posts, q) && i <= j <= |q|
    ensures QueueInPosts(posts, q[i..j])
  {
    forall n | 0 <= n < j - i
      ensures q[i..j][n] in posts
    {
      assert q[i..j][n] == q[i + n];
    }
  }

  /** The entity rows of one post. */
  function KeywordRows(postId: nat, words: seq<string>): (r: seq<Entity>)
    ensures |r| == |words|
    ensures forall i :: 0 <= i < |r| ==> r[i] == Entity(words[i], postId)
  {
    seq(|words|, i requires 0 <= i < |words| => Entity(words[i], postId))
  }

  /** A post's rows are one per kept keyword, all of them naming the post. */
  lemma KeywordRowsMembers(postId: nat, words: seq<string>)
    ensures forall e :: e in KeywordRows(postId, words) <==> e.postId == postId && e.entity in words
  {
    var r := KeywordRows(postId, words);
    forall e: Entity | e.postId == postId && e.entity in words
      ensures e in r
    {
      var i :| 0 <= i < |words| && words[i] == e.entity;
      assert r[i] == e;
    }
  }

  /** The keywords of a queued post. A queue row always names a stored post
      (its foreign key); a dangling one would contribute nothing. */
  function QueuedKeywords(posts: map<nat, Post>, id: nat, nlp: string -> seq<seq<Token>>): (r: seq<string>)
    ensures |r| <= MostCommonLimit
    ensures id in posts ==> r == PostKeywords(posts[id], nlp)
  {
    if id in posts then PostKeywords(posts[id], nlp) else []
  }

  /** The entity rows a batch adds, post by post and keyword by keyword. */
  function BatchEntities(posts: map<nat, Post>, batch: seq<nat>, nlp: string -> seq<seq<Token>>): (r: seq<Entity>)
    ensures |r| <= MostCommonLimit * |batch|
    decreases |batch|
  {
    if batch == [] then []
    else
      var id := batch[|batch| - 1];
      BatchEntities(posts, batch[..|batch| - 1], nlp) + KeywordRows(id, QueuedKeywords(posts, id, nlp))
  }

  /** The posts of a batch that got at least one keyword, in batch order. */
  function BatchSimilar(posts: map<nat, Post>, batch: seq<nat>, nlp: string -> seq<seq<Token>>): seq<nat>
    decreases |batch|
  {
    if batch == [] then []
    else
      var id := batch[|batch| - 1];
      BatchSimilar(posts, batch[..|batch| - 1], nlp) + (if QueuedKeywords(posts, id, nlp) != [] then [id] else [])
  }

  /** A row of `ids` would repeat a similarity-queue row, which the queue's unique key refuses. */
  predicate Collides(queue: seq<nat>, ids: seq<nat>) {
    exists i :: 0 <= i < |ids| && ids[i] in queue
  }

  /** The store after an attempt to commit, and whether the commit went through. */
  datatype Visit = Visit(store: Store, committed: bool)

  /** One batch: its entity rows and similarity-queue rows are added and its
      posts leave the entity queue, all in one commit; a failed commit
      (`failed` is the outcome of the database call) leaves the store as it was. */
  function BatchStep(st: Store, posts: map<nat, Post>, batch: seq<nat>, nlp: string -> seq<seq<Token>>, failed: bool): (v: Visit)
    ensures !v.committed ==> v.store == st
  {
    var similar := BatchSimilar(posts, batch, nlp);
    if failed || Collides(st.similarityQueue, similar) then Visit(st, false)
    else Visit(Store(st.entities + BatchEntities(posts, batch, nlp),
                     Filter(st.entityQueue, (id: nat) => id !in batch),
                     st.similarityQueue + similar), true)
  }

  /** The batches in order, `k` counting the commits; the run stops at the first failed commit. */
  function RunBatches(st: Store, posts: map<nat, Post>, bs: seq<seq<nat>>, k: nat,
                      nlp: string -> seq<seq<Token>>, fails: nat -> bool): Visit
    decreases |bs|
  {
    if bs == [] then Visit(st, true)
    else
      var v := BatchStep(st, posts, bs[0], nlp, fails(k));
      if !v.committed then v else RunBatches(v.store, posts, bs[1..], k + 1, nlp, fails)
  }

  // === Properties of a batch and of a run ===

  /** The rows a committed batch adds are exactly the kept keywords of its posts. */
  lemma {:induction false} BatchEntitiesMembers(posts: map<nat, Post>, batch: seq<nat>, nlp: string -> seq<seq<Token>>)
    ensures forall e :: e in BatchEntities(posts, batch, nlp) <==>
      e.postId in batch && e.entity in QueuedKeywords(posts, e.postId, nlp)
    decreases |batch|
  {
    if batch != [] {
      var init := batch[..|batch| - 1];
      assert batch == init + [batch[|batch| - 1]];
      BatchEntitiesMembers(posts, init, nlp);
      KeywordRowsMembers(batch[|batch| - 1], QueuedKeywords(posts, batch[|batch| - 1], nlp));
    }
  }

  /** A post joins the similarity queue exactly when it got a keyword; in
      particular a post without a description never does. */
  lemma {:induction false} BatchSimilarMembers(posts: map<nat, Post>, batch: seq<nat>, nlp: string -> seq<seq<Token>>)
    ensures forall id :: id in BatchSimilar(posts, batch, nlp) <==> id in batch && QueuedKeywords(posts, id, nlp) != []
    decreases |batch|
  {
    if batch != [] {
      var init := batch[..|batch| - 1];
      assert batch == init + [batch[|batch| - 1]];
      BatchSimilarMembers(posts, init, nlp);
    }
  }

  lemma {:induction false} BatchSimilarDistinct(posts: map<nat, Post>, batch: seq<nat>, nlp: string -> seq<seq<Token>>)
    requires Distinct(batch)
    ensures Distinct(BatchSimilar(posts, batch, nlp))
    decreases |batch|
  {
    if batch != [] {
      var init := batch[..|batch| - 1];
      BatchSimilarDistinct(posts, init, nlp);
      BatchSimilarMembers(posts, init, nlp);
      assert batch[|batch| - 1] !in init;
    }
  }

  /** The entity queue never gains a row during a run. */
  lemma {:induction false} RunQueueShrinks(st: Store, posts: map<nat, Post>, bs: seq<seq<nat>>, k: nat,
                                           nlp: string -> seq<seq<Token>>, fails: nat -> bool)
    ensures forall id :: id in RunBatches(st, posts, bs, k, nlp, fails).store.entityQueue ==> id in st.entityQueue
    decreases |bs|
  {
    if bs != [] {
      var v := BatchStep(st, posts, bs[0], nlp, fails(k));
      if v.committed {
        RunQueueShrinks(v.store, posts, bs[1..], k + 1, nlp, fails);
      }
    }
  }

  /** A run whose commits all go through empties the queue of every post it read. */
  lemma {:induction false} RunDrainsQueue(st: Store, posts: map<nat, Post>, q: seq<nat>, k: nat,
                                          nlp: string -> seq<seq<Token>>, fails: nat -> bool)
    ensures RunBatches(st, posts, Batches(q, BatchSize), k, nlp, fails).committed ==>
      forall id :: id in q ==> id !in RunBatches(st, posts, Batches(q, BatchSize), k, nlp, fails).store.entityQueue
    decreases |q|
  {
    if q != [] {
      var end := Min(BatchSize, |q|);
      var bs := Batches(q, BatchSize);
      assert bs[0] == q[..end] && bs[1..] == Batches(q[end..], BatchSize);
      var v := BatchStep(st, posts, bs[0], nlp, fails(k));
      if v.committed {
        RunDrainsQueue(v.store, posts, q[end..], k + 1, nlp, fails);
        RunQueueShrinks(v.store, posts, bs[1..], k + 1, nlp, fails);
        assert q == q[..end] + q[end..];
      }
    }
  }

  /** The similarity queue keeps its unique key through a run over a queue without repeats. */
  lemma {:induction false} RunKeepsSimilarityQueueDistinct(st: Store, posts: map<nat, Post>, q: seq<nat>, k: nat,
                                                           nlp: string -> seq<seq<Token>>, fails: nat -> bool)
    requires Distinct(q) && Distinct(st.similarityQueue)
    ensures Distinct(RunBatches(st, posts, Batches(q, BatchSize), k, nlp, fails).store.similarityQueue)
    decreases |q|
  {
    if q != [] {
      var end := Min(BatchSize, |q|);
      var bs := Batches(q, BatchSize);
      assert bs[0] == q[..end] && bs[1..] == Batches(q[end..], BatchSize);
      var v := BatchStep(st, posts, bs[0], nlp, fails(k));
      if v.committed {
        var similar := BatchSimilar(posts, q[..end], nlp);
        BatchSimilarDistinct(posts, q[..end], nlp);
        assert Distinct(v.store.similarityQueue) by {
          assert v.store.similarityQueue == st.similarityQueue + similar;
          assert !Collides(st.similarityQueue, similar);
        }
        RunKeepsSimilarityQueueDistinct(v.store, posts, q[end..], k + 1, nlp, fails);
      }
    }
  }

  // === The job ===

  /** The keyword loop of one post: a row per keyword, and whether there was one. */
  method KeywordLoop(postId: nat, words: seq<string>) returns (rows: seq<Entity>, postHasEntities: bool)
    ensures rows == KeywordRows(postId, words)
    ensures postHasEntities <==> words != []
  {
    rows := [];
    postHasEntities := false;
    var j := 0;
    while j < |words|
      invariant 0 <= j <= |words|
      invariant rows == KeywordRows(postId, words[..j])
      invariant postHasEntities <==> j > 0
    {
      postHasEntities := true;
      rows := rows + [Entity(words[j], postId)];
      j := j + 1;
    }
    assert words[..j] == words;
  }

  /** One more post of a batch, in terms of the batch functions. */
  /** A batch grown by one post adds that post's entity rows. */
  lemma BatchEntitiesSnoc(posts: map<nat, Post>, batch: seq<nat>, i: nat, nlp: string -> seq<seq<Token>>)
    requires i < |batch|
    ensures BatchEntities(posts, batch[..i + 1], nlp) ==
              BatchEntities(posts, batch[..i], nlp) + KeywordRows(batch[i], QueuedKeywords(posts, batch[i], nlp))
  {
    var grown := batch[..i + 1];
    assert grown[..|grown| - 1] == batch[..i];
  }

  /** A batch grown by one post adds that post to the similarity queue when it got a keyword. */
  lemma BatchSimilarSnoc(posts: map<nat, Post>, batch: seq<nat>, i: nat, nlp: string -> seq<seq<Token>>)
    requires i < |batch|
    ensures BatchSimilar(posts, batch[..i + 1], nlp) ==
              BatchSimilar(posts, batch[..i], nlp) + (if QueuedKeywords(posts, batch[i], nlp) != [] then [batch[i]] else [])
  {
    var grown := batch[..i + 1];
    assert grown[..|grown| - 1] == batch[..i];
  }

  /** The loop state after one more post of the batch. */
  lemma GatherStep(posts: map<nat, Post>, batch: seq<nat>, i: nat, nlp: string -> seq<seq<Token>>,
                   postIds: seq<nat>, rows: seq<Entity>, similar: seq<nat>, added: seq<Entity>, hasEntities: bool)
    requires i < |batch| && postIds == batch[..i]
    requires rows == BatchEntities(posts, batch[..i], nlp) && similar == BatchSimilar(posts, batch[..i], nlp)
    requires added == KeywordRows(batch[i], QueuedKeywords(posts, batch[i], nlp))
    requires hasEntities == (QueuedKeywords(posts, batch[i], nlp) != [])
    ensures postIds + [batch[i]] == batch[..i + 1]
    ensures rows + added == BatchEntities(posts, batch[..i + 1], nlp)
    ensures (if hasEntities then similar + [batch[i]] else similar) == BatchSimilar(posts, batch[..i + 1], nlp)
  {
    PrefixSnoc(batch, i);
    BatchEntitiesSnoc(posts, batch, i, nlp);
    BatchSimilarSnoc(posts, batch, i, nlp);
  }

  /** The entity rows of one queued post; a post without a description gets none. */
  method PostRows(posts: map<nat, Post>, id: nat, nlp: string -> seq<seq<Token>>) returns (rows: seq<Entity>, postHasEntities: bool)
    requires id in posts
    ensures rows == KeywordRows(id, QueuedKeywords(posts, id, nlp))
    ensures postHasEntities <==> QueuedKeywords(posts, id, nlp) != []
  {
    var post := posts[id];
    rows, postHasEntities := [], false;
    if post.desc != "" {
      var words := CountTop(nlp, post.title + ". " + post.desc);
      rows, postHasEntities := KeywordLoop(id, words);
    }
  }

  /** One post of the batch: its id, entity rows and queue row join what the loop has gathered. */
  method GatherPost(posts: map<nat, Post>, batch: seq<nat>, i: nat, nlp: string -> seq<seq<Token>>,
                    postIds: seq<nat>, rows: seq<Entity>, similar: seq<nat>)
    returns (postIds': seq<nat>, rows': seq<Entity>, similar': seq<nat>)
    requires i < |batch| && batch[i] in posts && postIds == batch[..i]
    requires rows == BatchEntities(posts, batch[..i], nlp) && similar == BatchSimilar(posts, batch[..i], nlp)
    ensures postIds' == batch[..i + 1]
    ensures rows' == BatchEntities(posts, batch[..i + 1], nlp)
    ensures similar' == BatchSimilar(posts, batch[..i + 1], nlp)
  {
    var id := batch[i];
    var added, postHasEntities := PostRows(posts, id, nlp);
    GatherStep(posts, batch, i, nlp, postIds, rows, similar, added, postHasEntities);
    postIds', rows' := postIds + [id], rows + added;
    similar' := if postHasEntities then similar + [id] else similar;
  }

  /** The keywords of one batch, gathered the way the job gathers them before its commit. */
  method GatherBatch(posts: map<nat, Post>, batch: seq<nat>, nlp: string -> seq<seq<Token>>)
    returns (postIds: seq<nat>, rows: seq<Entity>, similar: seq<nat>)
    requires QueueInPosts(posts, batch)
    ensures postIds == batch
    ensures rows == BatchEntities(posts, batch, nlp)
    ensures similar == BatchSimilar(posts, batch, nlp)
  {
    postIds, rows, similar := [], [], [];
    var i := 0;
    while i < |batch|
      invariant 0 <= i <= |batch|
      invariant postIds == batch[..i]
      invariant rows == BatchEntities(posts, batch[..i], nlp)
      invariant similar == BatchSimilar(posts, batch[..i], nlp)
    {
      postIds, rows, similar := GatherPost(posts, batch, i, nlp, postIds, rows, similar);
      i := i + 1;
    }
    assert batch[..i] == batch;
  }

  /** One batch and its commit; on failure the session is rolled back. */
  method CommitBatch(db: Db, batch: seq<nat>, nlp: string -> seq<seq<Token>>, failed: bool)
    returns (committed: bool, added: nat)
    requires QueueInPosts(db.posts, batch)
    modifies db`entities, db`entityQueue, db`similarityQueue
    ensures View(db) == BatchStep(old(View(db)), db.posts, batch, nlp, failed).store
    ensures committed == BatchStep(old(View(db)), db.posts, batch, nlp, failed).committed
    ensures added == |BatchEntities(db.posts, batch, nlp)|
    ensures committed ==> |db.entities| == |old(db.entities)| + added
  {
    var postIds, rows, similar := GatherBatch(db.posts, batch, nlp);
    added := |rows|;
    // The commit fails on the database's own account or on a repeated similarity-queue row.
    if failed || Collides(db.similarityQueue, similar) {
      return false, added;
    }
    db.entities := db.entities + rows;
    db.entityQueue := Filter(db.entityQueue, (id: nat) => id !in postIds);
    db.similarityQueue := db.similarityQueue + similar;
    committed := true;
  }

  /** The run after one batch commit, in terms of the state that commit left:
      the batch is `q[start..end]`, the rest of the run the batches of `q[end..]`. */
  lemma RunAdvance(st: Store, next: Store, posts: map<nat, Post>, q: seq<nat>, start: nat, batch: seq<nat>, rest: seq<seq<nat>>,
                   k: nat, nlp: string -> seq<seq<Token>>, fails: nat -> bool, committed: bool, target: Visit)
    requires start < |q| && rest == Batches(q[start..], BatchSize) && batch == q[start..Min(start + BatchSize, |q|)]
    requires next == BatchStep(st, posts, batch, nlp, fails(k)).store
    requires committed == BatchStep(st, posts, batch, nlp, fails(k)).committed
    requires RunBatches(st, posts, rest, k, nlp, fails) == target
    ensures rest != [] && rest[1..] == Batches(q[Min(start + BatchSize, |q|)..], BatchSize)
    ensures committed ==> RunBatches(next, posts, rest[1..], k + 1, nlp, fails) == target
    ensures !committed ==> target == Visit(next, false)
  {
    BatchesFrom(q, start, BatchSize);
  }

  /** The batch loop over the queued posts, up to the first failed commit. */
  method RunQueue(db: Db, enqueued: seq<nat>, nlp: string -> seq<seq<Token>>, fails: nat -> bool)
    returns (committed: bool, newEntities: nat)
    requires QueueInPosts(db.posts, enqueued)
    modifies db`entities, db`entityQueue, db`similarityQueue
    ensures View(db) == RunBatches(old(View(db)), db.posts, Batches(enqueued, BatchSize), 0, nlp, fails).store
    ensures committed == RunBatches(old(View(db)), db.posts, Batches(enqueued, BatchSize), 0, nlp, fails).committed
    ensures committed ==> |db.entities| == |old(db.entities)| + newEntities
  {
    ghost var rest := Batches(enqueued, BatchSize);
    ghost var target := RunBatches(View(db), db.posts, rest, 0, nlp, fails);
    assert enqueued[0..] == enqueued;
    newEntities := 0;
    var start := 0;
    var k := 0;
    while start < |enqueued|
      invariant 0 <= start <= |enqueued|
      invariant rest == Batches(enqueued[start..], BatchSize)
      invariant RunBatches(View(db), db.posts, rest, k, nlp, fails) == target
      invariant |db.entities| == |old(db.entities)| + newEntities
      decreases |enqueued| - start
    {
      var end := Min(start + BatchSize, |enqueued|);
      var batch := enqueued[start..end];
      ghost var before := View(db);
      SliceInPosts(db.posts, enqueued, start, end);
      var added;
      committed, added := CommitBatch(db, batch, nlp, fails(k));
      RunAdvance(before, View(db), db.posts, enqueued, start, batch, rest, k, nlp, fails, committed, target);
      newEntities := newEntities + added;
      if !committed {
        return;
      }
      rest := rest[1..];
      start := end;
      k := k + 1;
    }
    assert rest == [];
    committed := true;
  }

  /** `process_entities`: one run of the job. `fails(k)` says whether the
      database refuses the k-th commit for a reason of its own. */
  method ProcessEntities(db: Db, nlp: string -> seq<seq<Token>>, now: int, fails: nat -> bool)
    returns (outcome: JobOutcome, newEntities: nat)
    requires QueueInPosts(db.posts, db.entityQueue)
    modifies db`entities, db`entityQueue, db`similarityQueue, db`locks
    ensures db.locks == AfterCheck(old(db.locks), PROCESS, now, LockTimeout)
    ensures FreshLock(old(db.locks), PROCESS, now, LockTimeout) ==> outcome == Locked && View(db) == old(View(db))
    ensures !FreshLock(old(db.locks), PROCESS, now, LockTimeout) && old(db.entityQueue) == [] ==>
              outcome == NothingToDo && View(db) == old(View(db))
    ensures !FreshLock(old(db.locks), PROCESS, now, LockTimeout) && old(db.entityQueue) != [] ==>
              var r := RunBatches(old(View(db)), db.posts, Batches(old(db.entityQueue), BatchSize), 0, nlp, fails);
              View(db) == r.store && outcome == (if r.committed then Completed else Failed)
    ensures outcome == Completed ==> |db.entities| == |old(db.entities)| + newEntities
  {
    var locked := CheckLock(db, PROCESS, now, LockTimeout);
    if locked {
      return Locked, 0;
    }
    var enqueued := db.entityQueue;
    if |enqueued| == 0 {
      return NothingToDo, 0;
    }
    db.locks := db.locks + [JobLock(PROCESS, now)];
    var committed;
    committed, newEntities := RunQueue(db, enqueued, nlp, fails);
    // The lock row is deleted on both paths; a failed commit re-raises.
    db.locks := db.locks[..|db.locks| - 1];
    outcome := if committed then Completed else Failed;
  }
}
