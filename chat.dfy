/**
  Chat messages as the repository passes them around: dictionaries with a
  `role` and a `content` string. Roles are plain strings, as in the source,
  so a role other than the three known ones can be represented.
*/
module Chat {

  datatype Option<+T> = None | Some(value: T)

  datatype Message = Message(role: string, content: string)

  const SYSTEM: string := "system"
  const USER: string := "user"
  const ASSISTANT: string := "assistant"

  /** Python's `given or fallback` where `given` is an optional string:
      both `None` and the empty string are falsy. */
  function Or(given: Option<string>, fallback: string): (r: string)
    ensures given == None || given == Some("") ==> r == fallback
    ensures given.Some? && given.value != "" ==> r == given.value
  {
    if given.Some? && given.value != "" then given.value else fallback
  }

  /** `[m for m in history if m['role'] != 'system']` */
  function NonSystem(history: seq<Message>): seq<Message> {
    if history == [] then []
    else (if history[0].role == SYSTEM then [] else [history[0]]) + NonSystem(history[1..])
  }

  /** The filter keeps exactly the messages that are not system messages. */
  lemma {:induction false} NonSystemShape(history: seq<Message>)
    ensures |NonSystem(history)| <= |history|
    ensures forall i :: 0 <= i < |NonSystem(history)| ==> NonSystem(history)[i].role != SYSTEM
    ensures forall m :: m in NonSystem(history) <==> m in history && m.role != SYSTEM
  {
    if history != [] {
      NonSystemShape(history[1..]);
      assert history == [history[0]] + history[1..];
    }
  }

  /** The filter keeps the relative order of the messages it keeps. */
  lemma {:induction false} NonSystemAppend(a: seq<Message>, b: seq<Message>)
    ensures NonSystem(a + b) == NonSystem(a) + NonSystem(b)
  {
    if a != [] {
      assert (a + b)[1..] == a[1..] + b;
      NonSystemAppend(a[1..], b);
    } else {
      assert a + b == b;
    }
  }

  /** A history without system messages passes the filter unchanged. */
  lemma {:induction false} NonSystemIdentity(history: seq<Message>)
    requires forall i :: 0 <= i < |history| ==> history[i].role != SYSTEM
    ensures NonSystem(history) == history
  {
    if history != [] {
      NonSystemIdentity(history[1..]);
      assert history == [history[0]] + history[1..];
    }
  }

  /** `[m['content'] for m in turns if m['role'] == 'assistant']` */
  function AssistantContents(history: seq<Message>): (r: seq<string>)
    ensures |r| <= |history|
  {
    if history == [] then []
    else
      var last := history[|history| - 1];
      AssistantContents(history[..|history| - 1]) + (if last.role == ASSISTANT then [last.content] else [])
  }

  lemma AssistantContentsSnoc(history: seq<Message>, m: Message)
    ensures AssistantContents(history + [m]) ==
            AssistantContents(history) + (if m.role == ASSISTANT then [m.content] else [])
  {
    assert (history + [m])[..|history|] == history;
  }
}

/**
  The label-distribution side of the cross-encoder models: a score per
  label, and numpy's `argmax`, which picks the lowest index among equal
  maxima. Label 0 is "contradiction" for the NLI model the repository uses.
*/
module Nli {

  /** One score per label: the model always returns at least one. */
  type Scores = s: seq<real> | |s| > 0 witness [0.0]

  const CONTRADICTION: nat := 0

  /** `scores.argmax()` */
  function Argmax(scores: Scores): (k: nat)
    ensures k < |scores|
    ensures forall j :: 0 <= j < |scores| ==> scores[j] <= scores[k]
    ensures forall j :: 0 <= j < k ==> scores[j] < scores[k]
  {
    ArgmaxOfPrefix(scores, |scores|)
  }

  /** The index of the first maximum among `scores[..n]`. */
  function ArgmaxOfPrefix(scores: seq<real>, n: nat): (k: nat)
    requires 0 < n <= |scores|
    ensures k < n
    ensures forall j :: 0 <= j < n ==> scores[j] <= scores[k]
    ensures forall j :: 0 <= j < k ==> scores[j] < scores[k]
  {
    if n == 1 then 0
    else
      var k := ArgmaxOfPrefix(scores, n - 1);
      if scores[n - 1] > scores[k] then n - 1 else k
  }

  /** The predicted label is "contradiction" exactly when no score exceeds
      the contradiction score: a tie goes to the lowest index. */
  lemma ContradictionIff(scores: Scores)
    ensures Argmax(scores) == CONTRADICTION <==>
            forall j :: 0 <= j < |scores| ==> scores[j] <= scores[0]
  {
  }
}
