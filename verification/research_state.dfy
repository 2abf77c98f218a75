/** The channels of the deep-research graph. The graph is built over `OverallState`, and its
    nodes also write the keys of `ReflectionState`; `research_loop_count` is declared in both,
    so it is one channel. Append channels hold a sequence (LangGraph starts them at `[]`);
    last-value channels hold an `Option` (`None`: never written). */
module ResearchState {
  import opened Wrappers
  import opened Messages
  import opened Reducers

  /** The nodes of the research graph, with the `START`/`END` markers. */
  datatype ResearchNode =
    | Start | GenerateQuery | WebResearch | WebContentAnalysis | WebScraping
    | Reflection | FinalizeAnswer | End

  /** A `Send(node, {..., "id": id})` dispatch; `arg` is the search query or the URL. */
  datatype Send = Send(node: ResearchNode, arg: string, id: int)

  datatype ResearchState = ResearchState(
    // OverallState
    searchQuery: seq<string>,               // operator.add
    webResearchResult: seq<string>,         // operator.add
    webScrapingResult: seq<string>,         // operator.add
    messages: seq<Message>,                 // add_messages
    initialSearchQueryCount: Option<int>,
    maxResearchLoops: Option<int>,
    researchLoopCount: Option<int>,
    reasoningModel: Option<string>,
    // ReflectionState
    isSufficient: Option<bool>,
    knowledgeGap: Option<string>,
    followUpQueries: seq<string>,           // operator.add
    numberOfRanQueries: Option<int>)

  /** The dictionary a node returns: `None` for a key it does not write. */
  datatype ResearchUpdate = ResearchUpdate(
    searchQuery: Option<seq<string>>,
    webResearchResult: Option<seq<string>>,
    webScrapingResult: Option<seq<string>>,
    messages: Option<seq<Message>>,
    initialSearchQueryCount: Option<Option<int>>,
    maxResearchLoops: Option<Option<int>>,
    researchLoopCount: Option<Option<int>>,
    reasoningModel: Option<Option<string>>,
    isSufficient: Option<Option<bool>>,
    knowledgeGap: Option<Option<string>>,
    followUpQueries: Option<seq<string>>,
    numberOfRanQueries: Option<Option<int>>)

  const NoWrites := ResearchUpdate(None, None, None, None, None, None, None, None, None, None, None, None)

  /** The state a run starts from when the caller supplies only these channels. */
  function Initial(messages: seq<Message>, searchQuery: seq<string>): ResearchState {
    ResearchState(searchQuery, [], [], messages, None, None, None, None, None, None, [], None)
  }

  /** The loop counters are written by reflection only. */
  predicate LeavesLoopControl(u: ResearchUpdate) {
    u.researchLoopCount.None? && u.maxResearchLoops.None?
  }

  /** Folding one node's update into the state, channel by channel, by each channel's policy. */
  function Merge(s: ResearchState, u: ResearchUpdate): (r: ResearchState)
    ensures Appended(s.searchQuery, u.searchQuery, r.searchQuery)
    ensures Appended(s.webResearchResult, u.webResearchResult, r.webResearchResult)
    ensures Appended(s.webScrapingResult, u.webScrapingResult, r.webScrapingResult)
    ensures Appended(s.messages, u.messages, r.messages)
    ensures Appended(s.followUpQueries, u.followUpQueries, r.followUpQueries)
    ensures Overwritten(s.initialSearchQueryCount, u.initialSearchQueryCount, r.initialSearchQueryCount)
    ensures Overwritten(s.maxResearchLoops, u.maxResearchLoops, r.maxResearchLoops)
    ensures Overwritten(s.researchLoopCount, u.researchLoopCount, r.researchLoopCount)
    ensures Overwritten(s.reasoningModel, u.reasoningModel, r.reasoningModel)
    ensures Overwritten(s.isSufficient, u.isSufficient, r.isSufficient)
    ensures Overwritten(s.knowledgeGap, u.knowledgeGap, r.knowledgeGap)
    ensures Overwritten(s.numberOfRanQueries, u.numberOfRanQueries, r.numberOfRanQueries)
  {
    ResearchState(
      AppendWrite(s.searchQuery, u.searchQuery),
      AppendWrite(s.webResearchResult, u.webResearchResult),
      AppendWrite(s.webScrapingResult, u.webScrapingResult),
      AppendWrite(s.messages, u.messages),
      OverwriteWrite(s.initialSearchQueryCount, u.initialSearchQueryCount),
      OverwriteWrite(s.maxResearchLoops, u.maxResearchLoops),
      OverwriteWrite(s.researchLoopCount, u.researchLoopCount),
      OverwriteWrite(s.reasoningModel, u.reasoningModel),
      OverwriteWrite(s.isSufficient, u.isSufficient),
      OverwriteWrite(s.knowledgeGap, u.knowledgeGap),
      AppendWrite(s.followUpQueries, u.followUpQueries),
      OverwriteWrite(s.numberOfRanQueries, u.numberOfRanQueries))
  }

  /** The updates of a fan-out's branches merged in dispatch-index order. */
  function MergeAll(s: ResearchState, us: seq<ResearchUpdate>): ResearchState
    decreases |us|
  {
    if |us| == 0 then s else MergeAll(Merge(s, us[0]), us[1..])
  }

  function SearchQueryWrites(us: seq<ResearchUpdate>): seq<Option<seq<string>>> {
    seq(|us|, i requires 0 <= i < |us| => us[i].searchQuery)
  }

  function WebResearchResultWrites(us: seq<ResearchUpdate>): seq<Option<seq<string>>> {
    seq(|us|, i requires 0 <= i < |us| => us[i].webResearchResult)
  }

  function WebScrapingResultWrites(us: seq<ResearchUpdate>): seq<Option<seq<string>>> {
    seq(|us|, i requires 0 <= i < |us| => us[i].webScrapingResult)
  }

  function FollowUpWrites(us: seq<ResearchUpdate>): seq<Option<seq<string>>> {
    seq(|us|, i requires 0 <= i < |us| => us[i].followUpQueries)
  }

  /** After a join, the query and follow-up lists hold the old items followed by the
      branches' items in dispatch order. */
  lemma {:induction false} MergeAllQueries(s: ResearchState, us: seq<ResearchUpdate>)
    ensures MergeAll(s, us).searchQuery == s.searchQuery + Written(SearchQueryWrites(us))
    ensures MergeAll(s, us).followUpQueries == s.followUpQueries + Written(FollowUpWrites(us))
    decreases |us|
  {
    if |us| > 0 {
      MergeAllQueries(Merge(s, us[0]), us[1..]);
      assert SearchQueryWrites(us[1..]) == SearchQueryWrites(us)[1..];
      assert FollowUpWrites(us[1..]) == FollowUpWrites(us)[1..];
    }
  }

  /** After a join, the URL and page lists hold the old items followed by the branches' items
      in dispatch order. */
  lemma {:induction false} MergeAllResults(s: ResearchState, us: seq<ResearchUpdate>)
    ensures MergeAll(s, us).webResearchResult == s.webResearchResult + Written(WebResearchResultWrites(us))
    ensures MergeAll(s, us).webScrapingResult == s.webScrapingResult + Written(WebScrapingResultWrites(us))
    decreases |us|
  {
    if |us| > 0 {
      MergeAllResults(Merge(s, us[0]), us[1..]);
      assert WebResearchResultWrites(us[1..]) == WebResearchResultWrites(us)[1..];
      assert WebScrapingResultWrites(us[1..]) == WebScrapingResultWrites(us)[1..];
    }
  }

  /** After a fan-out joins, each append channel holds the old items followed by the branches'
      items in dispatch order, independent of the order in which branches finished. */
  lemma MergeAllAppends(s: ResearchState, us: seq<ResearchUpdate>)
    ensures MergeAll(s, us).searchQuery == s.searchQuery + Written(SearchQueryWrites(us))
    ensures MergeAll(s, us).webResearchResult == s.webResearchResult + Written(WebResearchResultWrites(us))
    ensures MergeAll(s, us).webScrapingResult == s.webScrapingResult + Written(WebScrapingResultWrites(us))
    ensures MergeAll(s, us).followUpQueries == s.followUpQueries + Written(FollowUpWrites(us))
  {
    MergeAllQueries(s, us);
    MergeAllResults(s, us);
  }

  /** Branches that leave the loop counters unwritten leave them unchanged after the join. */
  lemma {:induction false} MergeAllKeepsLoopControl(s: ResearchState, us: seq<ResearchUpdate>)
    requires forall i :: 0 <= i < |us| ==> LeavesLoopControl(us[i])
    ensures MergeAll(s, us).researchLoopCount == s.researchLoopCount
    ensures MergeAll(s, us).maxResearchLoops == s.maxResearchLoops
    decreases |us|
  {
    if |us| > 0 {
      MergeAllKeepsLoopControl(Merge(s, us[0]), us[1..]);
    }
  }
}
