/** `get_retriever`: the policy name chosen at start-up selects the search
    configuration handed to `as_retriever` on the vector store. */
module RetrieverPolicy {
  import opened Wrappers
  import opened PyValues

  /** The arguments of `as_retriever`: the search type and its keyword arguments. */
  datatype RetrieverConfig = RetrieverConfig(searchType: string, searchKwargs: map<string, Value>)

  /** The policies with a branch of their own. */
  const Policies: seq<string> := ["top_k", "threshold", "mmr"]

  /** `as_retriever`'s search type when none is given. */
  const DefaultSearchType := "similarity"

  /** The fallback branch names `vector_db`, but the parameter is spelled
      `vertor_db`, so evaluating the branch raises this. */
  const UndefinedStore := Raised("NameError", "name 'vector_db' is not defined")

  const TopK := RetrieverConfig("similarity", map["k" := Int(4)])
  const Threshold := RetrieverConfig("similarity_score_threshold", map["score_threshold" := Float(0.2)])
  const Mmr := RetrieverConfig("mmr", map["k" := Int(4), "fetch_k" := Int(20)])

  /** `get_retriever` as written: three known policies, and a fallback that fails. */
  function GetRetriever(policy: string): (r: Result<RetrieverConfig, PyError>)
    ensures r.Ok? <==> policy in Policies
    ensures policy == "top_k" ==> r == Ok(TopK)
    ensures policy == "threshold" ==> r == Ok(Threshold)
    ensures policy == "mmr" ==> r == Ok(Mmr)
    ensures r.Err? ==> r.error == UndefinedStore
  {
    if policy == "top_k" then Ok(TopK)
    else if policy == "threshold" then Ok(Threshold)
    else if policy == "mmr" then Ok(Mmr)
    else Err(UndefinedStore)
  }

  /** The three configurations are pairwise different, so the policy can be read
      back from the configuration it produced. */
  lemma PolicyRecoverable(p: string, q: string)
    requires GetRetriever(p).Ok? && GetRetriever(q).Ok?
    ensures GetRetriever(p) == GetRetriever(q) <==> p == q
  {
    assert TopK.searchType != Threshold.searchType;
    assert TopK.searchType != Mmr.searchType;
    assert Threshold.searchType != Mmr.searchType;
  }

  /** A concrete name that reaches the fallback: "similarity", the store's own
      default search type, does not produce a retriever. */
  lemma UnknownPolicyFails()
    ensures GetRetriever(DefaultSearchType) == Err(UndefinedStore)
  {
    assert DefaultSearchType !in Policies;
  }

  /** The evidently intended `get_retriever`: the fallback calls `as_retriever` on
      the store parameter with `k = 4` and the default search type. */
  function GetRetrieverIntended(policy: string): (c: RetrieverConfig)
    ensures policy !in Policies ==> c == RetrieverConfig(DefaultSearchType, map["k" := Int(4)])
  {
    match GetRetriever(policy)
    case Ok(c) => c
    case Err(_) => RetrieverConfig(DefaultSearchType, map["k" := Int(4)])
  }

  /** The corrected table agrees with the written one on the known policies, and
      every other name behaves exactly like 'top_k'. */
  lemma IntendedTotal(policy: string)
    ensures policy in Policies ==> GetRetriever(policy) == Ok(GetRetrieverIntended(policy))
    ensures policy !in Policies ==> GetRetrieverIntended(policy) == GetRetrieverIntended("top_k")
  {
    assert "top_k" in Policies;
  }
}
