/**
 * Normalisation of the raw dictionary returned by the agent service: only
 * the recognised top-level keys are kept, and the completion text, when
 * there is one, is copied under the canonical `text` key. Missing fields
 * are never an error.
 */
module Normalizer {
  import opened PyValues

  /** A raw or normalised response dictionary. */
  type Response = map<string, Value>

  /** The top-level keys copied unchanged, in the order they are examined. */
  const RecognisedKeys: seq<string> := ["sessionId", "invocationId", "contentType", "completion"]

  /** The canonical key the completion text is copied under. */
  const TextKey: string := "text"

  /**
   * The completion text: when the completion is a dictionary, its `text`
   * entry if that is truthy, else its `content` entry if that is truthy,
   * else `None`; `None` when there is no dictionary completion.
   */
  function CompletionText(response: Response): (t: Value)
    ensures t != PyNone <==>
              "completion" in response && response["completion"].PyDict? &&
              (Truthy(Get(response["completion"].entries, "text")) || Truthy(Get(response["completion"].entries, "content")))
    ensures t != PyNone ==>
              var completion := response["completion"].entries;
              t == if Truthy(Get(completion, "text")) then Get(completion, "text") else Get(completion, "content")
  {
    if "completion" in response && response["completion"].PyDict? then
      var completion := response["completion"].entries;
      Or(Or(Get(completion, "text"), Get(completion, "content")), PyNone)
    else
      PyNone
  }

  /** The normalised form of `response`, defined declaratively. */
  function Normalized(response: Response): (r: Response)
    ensures forall k :: k in r ==> k in RecognisedKeys || k == TextKey
    ensures forall k :: k in RecognisedKeys ==> (k in r <==> k in response)
    ensures forall k :: k in RecognisedKeys && k in response ==> r[k] == response[k]
    ensures TextKey in r <==> CompletionText(response) != PyNone
    ensures TextKey in r ==> r[TextKey] == CompletionText(response)
  {
    var copied := map k | k in response && k in RecognisedKeys :: response[k];
    var text := CompletionText(response);
    if text != PyNone then copied[TextKey := text] else copied
  }

  /**
   * The normaliser as the service client runs it: a loop over the recognised
   * keys that fills the result in place, then the optional text.
   */
  method Normalize(response: Response) returns (result: Response)
    ensures result == Normalized(response)
  {
    result := map[];
    for i := 0 to |RecognisedKeys|
      invariant forall k :: k in result <==> k in response && k in RecognisedKeys[..i]
      invariant forall k :: k in result ==> result[k] == response[k]
    {
      var k := RecognisedKeys[i];
      if k in response {
        result := result[k := response[k]];
      }
    }
    assert RecognisedKeys[..|RecognisedKeys|] == RecognisedKeys;
    if "completion" in response && response["completion"].PyDict? {
      var completion := response["completion"].entries;
      var text := Or(Or(Get(completion, "text"), Get(completion, "content")), PyNone);
      if text != PyNone {
        result := result[TextKey := text];
      }
    }
  }

  /** Nothing is produced exactly when none of the recognised keys is present; no field is required. */
  lemma NormalizedEmptyIff(response: Response)
    ensures Normalized(response) == map[] <==> forall k :: k in RecognisedKeys ==> k !in response
  {
    var r := Normalized(response);
    if forall k :: k in RecognisedKeys ==> k !in response {
      assert "completion" !in response;
      assert r.Keys == {};
    } else {
      var k :| k in RecognisedKeys && k in response;
      assert k in r;
    }
  }

  /** Normalising a normalised response changes nothing. */
  lemma NormalizedIdempotent(response: Response)
    ensures Normalized(Normalized(response)) == Normalized(response)
  {
    var r := Normalized(response);
    var rr := Normalized(r);
    assert "completion" in r <==> "completion" in response;
    assert "completion" in r ==> r["completion"] == response["completion"];
    assert CompletionText(r) == CompletionText(response);
    assert rr.Keys == r.Keys;
  }

  /** A response holding only a completion with text normalises to that completion and its text. */
  lemma NormalizedCompletionOnly(text: string)
    requires |text| > 0
    ensures var completion := PyDict(map["text" := PyStr(text)]);
            Normalized(map["completion" := completion]) == map["completion" := completion, TextKey := PyStr(text)]
  {
    var completion := PyDict(map["text" := PyStr(text)]);
    var response := map["completion" := completion];
    var r := Normalized(response);
    assert forall k :: k in RecognisedKeys && k != "completion" ==> k !in response;
    assert r.Keys == {"completion", TextKey};
  }
}
