/** The deterministic tail of intent classification (core/intent.py): the
    language model's reply is an input, and only its post-processing is modelled. */
module Intent {
  import opened Wrappers
  import opened Text
  import opened Types

  datatype IntentType = CHAT | TASK | QUERY

  /** The reply is stripped and upper-cased; TASK is looked for before QUERY. A
      missing or empty reply is CHAT. */
  function Classify(response: Option<string>): (t: IntentType)
    ensures t != CHAT ==> Truthy(response)
    ensures t == QUERY ==> !Contains(Upper(Strip(response.value)), "TASK")
    ensures t == TASK ==> |response.value| >= 4
  {
    if !Truthy(response) then CHAT
    else
      var cleaned := Upper(Strip(response.value));
      if Contains(cleaned, "TASK") then TASK
      else if Contains(cleaned, "QUERY") then QUERY
      else CHAT
  }

  /** The reference reading: the classification depends only on which
      keyword occurs, in any case, anywhere in the reply; stripping changes
      nothing because neither keyword contains whitespace. */
  lemma ClassifyByKeyword(reply: string)
    ensures Classify(Some(reply)) ==
              if Contains(Upper(reply), "TASK") then TASK
              else if Contains(Upper(reply), "QUERY") then QUERY
              else CHAT
  {
    ContainsUpperStrip(reply, "TASK");
    ContainsUpperStrip(reply, "QUERY");
    if reply == [] {
      assert !Contains(Upper(reply), "TASK");
      assert !Contains(Upper(reply), "QUERY");
    }
  }

  lemma MissingOrEmptyIsChat()
    ensures Classify(None) == CHAT && Classify(Some("")) == CHAT
  {
  }

  /** TASK wins even when QUERY also occurs. */
  lemma TaskBeatsQuery(reply: string)
    requires Contains(Upper(reply), "TASK")
    ensures Classify(Some(reply)) == TASK
  {
    ClassifyByKeyword(reply);
  }

  /** Case does not matter: any casing of the reply classifies alike. */
  lemma CaseInsensitive(a: string, b: string)
    requires Upper(a) == Upper(b)
    ensures Classify(Some(a)) == Classify(Some(b))
  {
    ClassifyByKeyword(a);
    ClassifyByKeyword(b);
  }

  lemma LowerCaseReply(reply: string)
    ensures Classify(Some(Lower(reply))) == Classify(Some(reply))
  {
    UpperOfLower(reply);
    CaseInsensitive(Lower(reply), reply);
  }

  /** A few replies as the model might word them. */
  lemma TaskExample()
    ensures Classify(Some("task.")) == TASK
  {
    assert OccursAt(Upper("task."), "TASK", 0);
    TaskBeatsQuery("task.");
  }

  lemma QueryExample()
    ensures Classify(Some("Query")) == QUERY
  {
    assert Upper("Query") == "QUERY";
    assert OccursAt("QUERY", "QUERY", 0);
    forall i | 0 <= i <= 1
      ensures !OccursAt("QUERY", "TASK", i)
    {
      assert "QUERY"[i] != 'T';
    }
    ClassifyByKeyword("Query");
  }
}
