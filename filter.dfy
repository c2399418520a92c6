/** The keyword filter: case-insensitive plain-substring matching over title and summary. */
module Filter {
  import opened Text
  import opened Seqs
  import opened Models

  /** The filter's state: the keywords, stored in lower case. */
  datatype FilterService = FilterService(keywords: seq<string>)

  /** The constructor: every keyword lowercased once, in the given order. */
  function NewFilterService(keywords: seq<string>): (f: FilterService)
    ensures |f.keywords| == |keywords|
    ensures forall i :: 0 <= i < |keywords| ==> f.keywords[i] == Lower(keywords[i])
    ensures forall k :: k in f.keywords ==> Lower(k) == k
  {
    var lowered := seq(|keywords|, i requires 0 <= i < |keywords| => Lower(keywords[i]));
    assert forall i :: 0 <= i < |keywords| ==> Lower(lowered[i]) == lowered[i] by {
      forall i | 0 <= i < |keywords| {
        LowerIdempotent(keywords[i]);
      }
    }
    FilterService(lowered)
  }

  /** Some keyword occurs in the lowercased text. */
  function MatchesKeywords(f: FilterService, text: string): (r: bool)
    ensures r <==> exists i :: 0 <= i < |f.keywords| && Occurs(f.keywords[i], Lower(text))
  {
    var lowered := Lower(text);
    exists i | 0 <= i < |f.keywords| :: Contains(lowered, f.keywords[i])
  }

  /** The text an item is matched against: title and summary joined by one space. */
  function Blob(item: NewsItem): string {
    item.title + " " + item.summary
  }

  function ItemMatches(f: FilterService, item: NewsItem): bool {
    MatchesKeywords(f, Blob(item))
  }

  /** The keep-predicate of `FilterItems`, as a value. */
  function Relevant(f: FilterService): NewsItem -> bool {
    item => ItemMatches(f, item)
  }

  /** `filter_items`: the matching items, in input order. */
  method FilterItems(f: FilterService, items: seq<NewsItem>) returns (filtered: seq<NewsItem>)
    ensures filtered == Keep(items, Relevant(f))
  {
    filtered := [];
    var i := 0;
    while i < |items|
      invariant 0 <= i <= |items|
      invariant filtered == Keep(items[..i], Relevant(f))
    {
      var item := items[i];
      PrefixSnoc(items, i);
      KeepSnoc(items[..i], item, Relevant(f));
      if MatchesKeywords(f, Blob(item)) {
        filtered := filtered + [item];
      }
      i := i + 1;
    }
    assert items[..i] == items;
  }

  /** An item survives iff it was in the input and its title-and-summary text matches. */
  lemma FilterMembership(f: FilterService, items: seq<NewsItem>, item: NewsItem)
    ensures item in Keep(items, Relevant(f)) <==> item in items && ItemMatches(f, item)
  {
    KeepMembership(items, Relevant(f), item);
  }

  /** The result keeps the input's order and never lengthens it. */
  lemma FilterIsSubsequence(f: FilterService, items: seq<NewsItem>)
    ensures IsSubseq(Keep(items, Relevant(f)), items)
    ensures |Keep(items, Relevant(f))| <= |items|
  {
    KeepIsSubseq(items, Relevant(f));
  }

  lemma FilterIdempotent(f: FilterService, items: seq<NewsItem>)
    ensures Keep(Keep(items, Relevant(f)), Relevant(f)) == Keep(items, Relevant(f))
  {
    KeepIdempotent(items, Relevant(f));
  }

  /** With no keywords nothing matches, so nothing survives the filter. */
  lemma NoKeywordsNoMatches(items: seq<NewsItem>, text: string)
    ensures !MatchesKeywords(NewFilterService([]), text)
    ensures Keep(items, Relevant(NewFilterService([]))) == []
  {
    KeepNone(items, Relevant(NewFilterService([])));
  }

  /** An empty keyword occurs in every text, so it lets every item through. */
  lemma EmptyKeywordMatchesAll(keywords: seq<string>, items: seq<NewsItem>)
    requires "" in keywords
    ensures Keep(items, Relevant(NewFilterService(keywords))) == items
  {
    var f := NewFilterService(keywords);
    var j :| 0 <= j < |keywords| && keywords[j] == "";
    assert f.keywords[j] == "";
    forall i | 0 <= i < |items|
      ensures ItemMatches(f, items[i])
    {
      var t := Lower(Blob(items[i]));
      assert "" <= t[0..];
    }
    KeepAll(items, Relevant(f));
  }

  /** Matching ignores the case of the text. */
  lemma MatchIgnoresTextCase(f: FilterService, text: string)
    ensures MatchesKeywords(f, text) == MatchesKeywords(f, Lower(text))
  {
    LowerIdempotent(text);
  }

  /** Matching ignores the case in which the keywords were given. */
  lemma MatchIgnoresKeywordCase(a: seq<string>, b: seq<string>, text: string)
    requires |a| == |b|
    requires forall i :: 0 <= i < |a| ==> Lower(a[i]) == Lower(b[i])
    ensures MatchesKeywords(NewFilterService(a), text) == MatchesKeywords(NewFilterService(b), text)
  {
    assert NewFilterService(a) == NewFilterService(b);
  }

  /** A keyword matches anywhere, also inside a longer word: "ia" matches "Diagnosticar". */
  lemma MatchInsideWord()
    ensures MatchesKeywords(NewFilterService(["ia"]), "Diagnosticar")
  {
    var f := NewFilterService(["ia"]);
    var t := Lower("Diagnosticar");
    assert Lower("ia") == "ia";
    assert f.keywords == ["ia"];
    assert t == "diagnosticar";
    assert "ia" <= t[1..];
    assert Occurs(f.keywords[0], t);
  }

  /** The single space between title and summary can be part of a match: "gpt " in "ChatGPT news". */
  lemma MatchAcrossJoin(item: NewsItem)
    requires item.title == "ChatGPT" && item.summary == "news"
    ensures ItemMatches(NewFilterService(["GPT "]), item)
  {
    var f := NewFilterService(["GPT "]);
    var t := Lower(Blob(item));
    assert Blob(item) == "ChatGPT news";
    assert t == "chatgpt news";
    assert LowerChar('G') == 'g' && LowerChar('P') == 'p' && LowerChar('T') == 't';
    assert Lower("GPT ") == "gpt ";
    assert f.keywords == ["gpt "];
    assert "gpt " <= t[4..];
    assert Occurs(f.keywords[0], t);
  }

  /** Neither title nor summary alone contains "gpt ", yet the item matches. */
  lemma MatchNeedsJoin(item: NewsItem)
    requires item.title == "ChatGPT" && item.summary == "news"
    ensures !Contains(Lower(item.title), "gpt ") && !Contains(Lower(item.summary), "gpt ")
  {
    assert LowerChar('C') == 'c' && LowerChar('G') == 'g' && LowerChar('P') == 'p' && LowerChar('T') == 't';
    assert Lower(item.title) == "chatgpt";
    assert Lower(item.summary) == "news";
    assert ' ' !in Lower(item.title) && ' ' !in Lower(item.summary);
    if Contains(Lower(item.title), "gpt ") {
      OccursKeepsChars("gpt ", Lower(item.title), 3);
    }
    if Contains(Lower(item.summary), "gpt ") {
      OccursKeepsChars("gpt ", Lower(item.summary), 3);
    }
  }
}
