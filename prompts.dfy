/**
 * The prompt side of the tool: `generatePrompt` builds the two questions
 * asked for style number `n`, and `generateList` reads the answers back by
 * keyword.
 */
module Prompts {
  import opened Strings

  /**
   * `generateList`: the values of the entries whose key includes `keyword`,
   * in key order. Entries are the object's properties in `Object.keys`
   * order.
   */
  function GenerateList<V>(entries: seq<(string, V)>, keyword: string): (r: seq<V>)
    ensures |r| <= |entries|
    ensures forall v :: v in r ==>
      exists i :: 0 <= i < |entries| && entries[i].1 == v && Includes(entries[i].0, keyword)
    ensures forall i :: 0 <= i < |entries| && Includes(entries[i].0, keyword) ==> entries[i].1 in r
  {
    if entries == [] then []
    else
      var rest := GenerateList(entries[1..], keyword);
      assert forall i :: 1 <= i < |entries| ==> entries[i] == entries[1..][i - 1];
      if Includes(entries[0].0, keyword) then [entries[0].1] + rest else rest
  }

  /** Selecting from two runs of entries selects from each in turn. */
  lemma {:induction false} GenerateListAppend<V>(xs: seq<(string, V)>, ys: seq<(string, V)>, keyword: string)
    ensures GenerateList(xs + ys, keyword) == GenerateList(xs, keyword) + GenerateList(ys, keyword)
  {
    if xs != [] {
      var all := xs + ys;
      assert all[0] == xs[0];
      assert all[1..] == xs[1..] + ys;
      GenerateListAppend(xs[1..], ys, keyword);
      var head := if Includes(xs[0].0, keyword) then [xs[0].1] else [];
      assert GenerateList(all, keyword) == head + GenerateList(all[1..], keyword);
      assert GenerateList(xs, keyword) == head + GenerateList(xs[1..], keyword);
    } else {
      assert xs + ys == ys;
    }
  }

  /** One question of the prompt: its kind, the answer's key, and the text shown. */
  datatype Prompt = Prompt(kind: string, name: string, message: string)

  /**
   * `generatePrompt`: the two questions for style number `n`. The answer to
   * the first is picked up by the keyword "style" and not by "name"; the
   * answer to the second the other way round.
   */
  function GeneratePrompt(n: nat): (r: seq<Prompt>)
    ensures |r| == 2
    ensures r[0].name == "style" + Decimal(n) && r[1].name == "name" + Decimal(n)
    ensures r[0].kind == "input" && r[1].kind == "input"
    ensures r[0].message == "What is your style URL? " && r[1].message == "What is your style name? "
    ensures Includes(r[0].name, "style") && !Includes(r[0].name, "name")
    ensures Includes(r[1].name, "name") && !Includes(r[1].name, "style")
  {
    var style := Prompt("input", "style" + Decimal(n), "What is your style URL? ");
    var name := Prompt("input", "name" + Decimal(n), "What is your style name? ");
    KeyKeywords(n);
    [style, name]
  }

  /** "style" followed by digits never includes "name", and the other way round. */
  lemma KeyKeywords(n: nat)
    ensures Includes("style" + Decimal(n), "style") && !Includes("style" + Decimal(n), "name")
    ensures Includes("name" + Decimal(n), "name") && !Includes("name" + Decimal(n), "style")
  {
    IncludesPrefix("style", Decimal(n));
    IncludesPrefix("name", Decimal(n));
    var digits := Decimal(n);
    assert 'n' !in digits && 's' !in digits;
    assert 'n' !in "style" + digits;
    assert 's' !in "name" + digits;
    MissingCharExcludes("style" + digits, "name", 0);
    MissingCharExcludes("name" + digits, "style", 0);
  }

  /** Questions for different style numbers have different answer keys. */
  lemma PromptNamesDistinct(n: nat, m: nat)
    requires n != m
    ensures GeneratePrompt(n)[0].name != GeneratePrompt(m)[0].name
    ensures GeneratePrompt(n)[1].name != GeneratePrompt(m)[1].name
    ensures GeneratePrompt(n)[0].name != GeneratePrompt(m)[1].name
  {
    DecimalInjective(n, m);
    var a, b := Decimal(n), Decimal(m);
    assert ("style" + a)[5..] == a && ("style" + b)[5..] == b;
    assert ("name" + a)[4..] == a && ("name" + b)[4..] == b;
    assert |"style" + a| > 0 && ("style" + a)[0] == 's';
    assert |"name" + b| > 0 && ("name" + b)[0] == 'n';
  }

  /** The answers to the two questions for style `n`. */
  function AnswerPair(n: nat, url: string, name: string): seq<(string, string)>
  {
    var prompts := GeneratePrompt(n);
    [(prompts[0].name, url), (prompts[1].name, name)]
  }

  /** The two answers for one style are selected one by each keyword. */
  lemma PairSelect(n: nat, url: string, name: string)
    ensures GenerateList(AnswerPair(n, url, name), "style") == [url]
    ensures GenerateList(AnswerPair(n, url, name), "name") == [name]
  {
    assert AnswerPair(n, url, name)[1..][1..] == [];
  }

  /** The answers to the questions for styles `first`, `first + 1`, ..., in the order asked. */
  function StyleAnswers(first: nat, urls: seq<string>, names: seq<string>): seq<(string, string)>
    requires |urls| == |names|
    decreases |urls|
  {
    if urls == [] then []
    else AnswerPair(first, urls[0], names[0]) + StyleAnswers(first + 1, urls[1..], names[1..])
  }

  /** The answers object: the repository folder, then the questions for styles 1 to N. */
  function Answers(repository: string, urls: seq<string>, names: seq<string>): seq<(string, string)>
    requires |urls| == |names|
  {
    [("repository", repository)] + StyleAnswers(1, urls, names)
  }

  lemma {:induction false} StyleAnswersUrls(first: nat, urls: seq<string>, names: seq<string>)
    requires |urls| == |names|
    ensures GenerateList(StyleAnswers(first, urls, names), "style") == urls
    decreases |urls|
  {
    if urls != [] {
      var rest := StyleAnswers(first + 1, urls[1..], names[1..]);
      StyleAnswersUrls(first + 1, urls[1..], names[1..]);
      PairSelect(first, urls[0], names[0]);
      GenerateListAppend(AnswerPair(first, urls[0], names[0]), rest, "style");
      assert [urls[0]] + urls[1..] == urls;
    }
  }

  lemma {:induction false} StyleAnswersNames(first: nat, urls: seq<string>, names: seq<string>)
    requires |urls| == |names|
    ensures GenerateList(StyleAnswers(first, urls, names), "name") == names
    decreases |urls|
  {
    if urls != [] {
      var rest := StyleAnswers(first + 1, urls[1..], names[1..]);
      StyleAnswersNames(first + 1, urls[1..], names[1..]);
      PairSelect(first, urls[0], names[0]);
      GenerateListAppend(AnswerPair(first, urls[0], names[0]), rest, "name");
      assert [names[0]] + names[1..] == names;
    }
  }

  /** The repository question's key includes neither keyword. */
  lemma RepositoryKeySkipped()
    ensures !Includes("repository", "style") && !Includes("repository", "name")
  {
    assert 'l' !in "repository" && 'n' !in "repository";
    MissingCharExcludes("repository", "style", 3);
    MissingCharExcludes("repository", "name", 0);
  }

  /**
   * `preTest` reads back exactly what was asked: the "style" answers are the
   * URLs and the "name" answers the display names, both in the order of the
   * questions; the repository answer is in neither list.
   */
  lemma AnswersSelect(repository: string, urls: seq<string>, names: seq<string>)
    requires |urls| == |names|
    ensures GenerateList(Answers(repository, urls, names), "style") == urls
    ensures GenerateList(Answers(repository, urls, names), "name") == names
  {
    var head := [("repository", repository)];
    RepositoryKeySkipped();
    StyleAnswersUrls(1, urls, names);
    StyleAnswersNames(1, urls, names);
    GenerateListAppend(head, StyleAnswers(1, urls, names), "style");
    GenerateListAppend(head, StyleAnswers(1, urls, names), "name");
  }
}
