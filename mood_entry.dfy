/**
 * The mood screen's own state: the mood text, the slider score and the
 * loading flag that keeps a second request from being sent while the
 * first is pending.
 */
module MoodEntry {
  import opened Wrappers
  import opened Types

  class MoodForm {
    var mood: string
    var score: int
    var loading: bool

    /** The slider only produces scores from 1 to 100. */
    ghost predicate Valid()
      reads this
    {
      1 <= score <= 100
    }

    /** The form opens on the draft's earlier mood and score, or on '' and 50. */
    constructor (initialMood: Option<string>, initialScore: Option<int>)
      requires initialScore.Some? ==> 1 <= initialScore.value <= 100
      ensures Valid() && !loading
      ensures mood == initialMood.GetOr("") && score == initialScore.GetOr(50)
    {
      mood := initialMood.GetOr("");
      score := initialScore.GetOr(50);
      loading := false;
    }

    /** The submit button is enabled only with some mood text and no request pending. */
    predicate CanSubmit()
      reads this
    {
      mood != "" && !loading
    }

    method Edit(text: string)
      modifies this`mood
      ensures mood == text
    {
      mood := text;
    }

    method Slide(v: int)
      requires 1 <= v <= 100
      modifies this`score
      ensures Valid() && score == v
    {
      score := v;
    }

    /**
     * A click on the submit button: when it is enabled, one mood reading
     * is requested and the form is loading until it settles; otherwise
     * nothing happens.
     */
    method Submit() returns (request: bool)
      requires Valid()
      modifies this`loading
      ensures request == old(CanSubmit())
      ensures request ==> MoodInputValid(mood, score)
      ensures loading == (old(loading) || request)
    {
      request := CanSubmit();
      if request {
        loading := true;
      }
    }

    /** The reading settled, by an answer or a fallback. */
    method Settle()
      modifies this`loading
      ensures !loading
    {
      loading := false;
    }
  }

  /**
   * Two clicks in a row on a freshly opened form send at most one request:
   * the first exactly when there is mood text, the second never.
   */
  method SubmitTwice(initialMood: Option<string>, initialScore: Option<int>) returns (first: bool, second: bool)
    requires initialScore.Some? ==> 1 <= initialScore.value <= 100
    ensures first <==> initialMood.GetOr("") != ""
    ensures !second
  {
    var form := new MoodForm(initialMood, initialScore);
    first := form.Submit();
    second := form.Submit();
  }
}
