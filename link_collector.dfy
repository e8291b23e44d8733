/** The link-check pass's preparation step: the collected links, deduplicated by URI, minus those
    an ignore pattern matches. */
module LinkCollector {
  import opened Wrappers
  import WildMatch

  /** A collected link, keyed by its URI; `source` stands for the rest of its metadata. */
  datatype Request = Request(uri: string, source: string)

  /** `uri.strip_suffix('/')`, or `uri` itself when it does not end with `/`. */
  function StripSlash(uri: string): string {
    if |uri| > 0 && uri[|uri| - 1] == '/' then uri[..|uri| - 1] else uri
  }

  /** Some ignore pattern matches the URI with one trailing `/` removed. */
  predicate IsIgnored(uri: string, ignoredUriWildcards: seq<string>) {
    exists i :: 0 <= i < |ignoredUriWildcards| && WildMatch.Matches(ignoredUriWildcards[i], StripSlash(uri))
  }

  /** The map the loop builds: every link not ignored, inserted by URI in collection order, so that
      a later link replaces an earlier one with the same URI. */
  function DedupMap(links: seq<Request>, ignoredUriWildcards: seq<string>): map<string, Request>
    decreases |links|
  {
    if links == [] then map[]
    else
      var m := DedupMap(links[..|links| - 1], ignoredUriWildcards);
      var link := links[|links| - 1];
      if IsIgnored(link.uri, ignoredUriWildcards) then m else m[link.uri := link]
  }

  /** The dedup loop of `collect_links`; a failure of the collection itself is passed on. */
  method CollectLinks<E>(collected: Result<seq<Request>, E>, ignoredUriWildcards: seq<string>)
    returns (r: Result<map<string, Request>, E>)
    ensures collected.Failure? ==> r == Failure(collected.error)
    ensures collected.Success? ==> r == Success(DedupMap(collected.value, ignoredUriWildcards))
  {
    if collected.Failure? {
      return Failure(collected.error);
    }
    var links := collected.value;
    var linksMap: map<string, Request> := map[];
    for i := 0 to |links|
      invariant linksMap == DedupMap(links[..i], ignoredUriWildcards)
    {
      assert links[..i + 1][..i] == links[..i];
      var uri := links[i].uri;
      var matchesAnyIgnoredUriWildcard := IsIgnored(uri, ignoredUriWildcards);
      if !matchesAnyIgnoredUriWildcard {
        linksMap := linksMap[uri := links[i]];
      }
    }
    assert links[..|links|] == links;
    return Success(linksMap);
  }

  /** A URI is a key of the result exactly when it was collected and no pattern ignores it; the
      keys are the URIs as collected, with their trailing `/` if any. */
  lemma {:induction false} KeysAreKeptUris(links: seq<Request>, ignoredUriWildcards: seq<string>, uri: string)
    ensures uri in DedupMap(links, ignoredUriWildcards) <==>
      (exists i :: 0 <= i < |links| && links[i].uri == uri) && !IsIgnored(uri, ignoredUriWildcards)
    decreases |links|
  {
    if links != [] {
      var init := links[..|links| - 1];
      KeysAreKeptUris(init, ignoredUriWildcards, uri);
      if exists i :: 0 <= i < |links| && links[i].uri == uri {
        var i :| 0 <= i < |links| && links[i].uri == uri;
        if i < |links| - 1 {
          assert init[i].uri == uri;
        }
      }
      if exists i :: 0 <= i < |init| && init[i].uri == uri {
        var i :| 0 <= i < |init| && init[i].uri == uri;
        assert links[i].uri == uri;
      }
    }
  }

  /** Each URI is stored once, with the last collected link that has it. */
  lemma {:induction false} StoredLinkIsLastOccurrence(links: seq<Request>, ignoredUriWildcards: seq<string>, uri: string)
    requires uri in DedupMap(links, ignoredUriWildcards)
    ensures exists i ::
              && 0 <= i < |links| && DedupMap(links, ignoredUriWildcards)[uri] == links[i]
              && links[i].uri == uri && forall j :: i < j < |links| ==> links[j].uri != uri
    decreases |links|
  {
    var init := links[..|links| - 1];
    var last := links[|links| - 1];
    if last.uri == uri && !IsIgnored(uri, ignoredUriWildcards) {
      assert DedupMap(links, ignoredUriWildcards)[uri] == links[|links| - 1];
    } else {
      if last.uri == uri {
        KeysAreKeptUris(links, ignoredUriWildcards, uri);
        assert false;
      }
      StoredLinkIsLastOccurrence(init, ignoredUriWildcards, uri);
      var i :| 0 <= i < |init| && DedupMap(init, ignoredUriWildcards)[uri] == init[i]
        && init[i].uri == uri && forall j :: i < j < |init| ==> init[j].uri != uri;
      assert links[i] == init[i];
    }
  }

  /** Without ignore patterns every collected URI is kept. */
  lemma EmptyIgnoreListKeepsAll(links: seq<Request>)
    ensures DedupMap(links, []).Keys == set i | 0 <= i < |links| :: links[i].uri
  {
    forall uri ensures uri in DedupMap(links, []) <==> uri in set i | 0 <= i < |links| :: links[i].uri {
      KeysAreKeptUris(links, [], uri);
    }
  }

  /** A URI without a trailing `/` and the same URI with one are ignored together. */
  lemma SlashVariantsIgnoredTogether(uri: string, ignoredUriWildcards: seq<string>)
    requires |uri| == 0 || uri[|uri| - 1] != '/'
    ensures IsIgnored(uri + "/", ignoredUriWildcards) <==> IsIgnored(uri, ignoredUriWildcards)
  {
    assert StripSlash(uri + "/") == uri;
  }

  /** A pattern that matches a URI keeps both that URI and its `/`-terminated variant out of the
      result. */
  lemma MatchedUriExcludedWithSlash(links: seq<Request>, ignoredUriWildcards: seq<string>, uri: string, k: nat)
    requires |uri| == 0 || uri[|uri| - 1] != '/'
    requires k < |ignoredUriWildcards| && WildMatch.Matches(ignoredUriWildcards[k], uri)
    ensures uri !in DedupMap(links, ignoredUriWildcards)
    ensures uri + "/" !in DedupMap(links, ignoredUriWildcards)
  {
    SlashVariantsIgnoredTogether(uri, ignoredUriWildcards);
    KeysAreKeptUris(links, ignoredUriWildcards, uri);
    KeysAreKeptUris(links, ignoredUriWildcards, uri + "/");
  }
}
