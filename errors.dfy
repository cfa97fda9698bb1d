/**
 * Flattening an error and its chain of causes into the one line shown in the
 * info bar: the error's own text, then ": " and the text of each cause.
 */
module ErrorChain {
  import opened Types

  /** An error value: its display text and the error it was caused by, if any. */
  datatype Error = Error(text: string, source: Option<Error>)

  /** The texts met by following `source` links from `cause` downwards. */
  function Chain(cause: Option<Error>): seq<string>
    decreases cause
  {
    match cause
    case None => []
    case Some(e) => [e.text] + Chain(e.source)
  }

  /** The texts of the causes of `e`, nearest first. */
  function Causes(e: Error): seq<string>
  {
    Chain(e.source)
  }

  /** Every cause written as ": " followed by its text, in order. */
  function Suffixes(causes: seq<string>): string
    decreases |causes|
  {
    if causes == [] then "" else ": " + causes[0] + Suffixes(causes[1..])
  }

  /** Reference definition: the parts joined by a separator, built from the last part. */
  function Join(parts: seq<string>, sep: string): string
    decreases |parts|
  {
    if parts == [] then ""
    else if |parts| == 1 then parts[0]
    else Join(parts[..|parts| - 1], sep) + sep + parts[|parts| - 1]
  }

  /** The flattened message of an error. */
  function Flattened(e: Error): string
  {
    e.text + Suffixes(Causes(e))
  }

  lemma {:induction false} SuffixesAppend(causes: seq<string>, c: string)
    ensures Suffixes(causes + [c]) == Suffixes(causes) + ": " + c
    decreases |causes|
  {
    if causes == [] {
      assert [] + [c] == [c];
      assert [c][1..] == [];
    } else {
      assert (causes + [c])[0] == causes[0];
      assert (causes + [c])[1..] == causes[1..] + [c];
      SuffixesAppend(causes[1..], c);
    }
  }

  /** The message is the error's text and its causes joined by ": ", in chain order. */
  lemma {:induction false} FlattenedIsJoin(text: string, causes: seq<string>)
    ensures text + Suffixes(causes) == Join([text] + causes, ": ")
    decreases |causes|
  {
    if causes == [] {
      assert [text] + causes == [text];
    } else {
      var init := causes[..|causes| - 1];
      var last := causes[|causes| - 1];
      assert causes == init + [last];
      SuffixesAppend(init, last);
      FlattenedIsJoin(text, init);
      assert ([text] + causes)[..|[text] + causes| - 1] == [text] + init;
    }
  }

  /** An error without a cause shows its own text alone; otherwise its text, ": ",
      and the flattened message of its cause. */
  lemma FlattenedNests(e: Error)
    ensures e.source.None? ==> Flattened(e) == e.text
    ensures e.source.Some? ==> Flattened(e) == e.text + ": " + Flattened(e.source.value)
  {
    if e.source.Some? {
      var c := e.source.value;
      assert Causes(e) == [c.text] + Causes(c);
      assert Causes(e)[1..] == Causes(c);
    }
  }

  /** The `while let Some(error) = cause` loop of the Error arm. */
  method Flatten(why: Error) returns (message: string)
    ensures message == Flattened(why)
  {
    message := why.text;
    var cause := why.source;
    ghost var seen: seq<string> := [];
    while cause.Some?
      invariant seen + Chain(cause) == Causes(why)
      invariant message == why.text + Suffixes(seen)
      decreases cause
    {
      var error := cause.value;
      SuffixesAppend(seen, error.text);
      message := message + ": " + error.text;
      seen := seen + [error.text];
      cause := error.source;
    }
    assert seen == Causes(why);
  }
}
