/**
 * How a repository is shown on a card: the display name derived from `name`, and the
 * fallbacks for a missing description or language.
 *
 * Home shows the name with `-` and `_` turned into spaces (client/src/pages/Home.jsx:127);
 * Projects additionally capitalises the first character of every space-separated word
 * (client/src/pages/Projects.jsx:133). Neither touches the id used as the card's key.
 */
module Display {
  import opened Optional
  import Ascii
  import opened Repos

  predicate IsSeparator(c: char) { c == '-' || c == '_' }

  /** `name.replace(/[-_]/g, ' ')` */
  function SpaceSeparators(name: string): (r: string)
    ensures |r| == |name|
    ensures forall i :: 0 <= i < |r| ==> !IsSeparator(r[i])
    ensures forall i :: 0 <= i < |name| && IsSeparator(name[i]) ==> r[i] == ' '
    ensures forall i :: 0 <= i < |name| && !IsSeparator(name[i]) ==> r[i] == name[i]
  {
    if |name| == 0 then ""
    else [if IsSeparator(name[0]) then ' ' else name[0]] + SpaceSeparators(name[1..])
  }

  /** `s.split(' ')`: the pieces between single spaces; there is always at least one. */
  function Split(s: string): (words: seq<string>)
    ensures |words| >= 1
    ensures forall w :: w in words ==> ' ' !in w
  {
    if |s| == 0 then [""]
    else
      var rest := Split(s[1..]);
      if s[0] == ' ' then [""] + rest
      else [[s[0]] + rest[0]] + rest[1..]
  }

  /** `words.join(' ')` */
  function Join(words: seq<string>): string {
    if |words| == 0 then ""
    else if |words| == 1 then words[0]
    else words[0] + " " + Join(words[1..])
  }

  /** `word.charAt(0).toUpperCase() + word.slice(1)` */
  function Capitalize(word: string): (r: string)
    ensures |r| == |word|
    ensures |word| > 0 ==> r[0] == Ascii.ToUpper(word[0]) && r[1..] == word[1..]
  {
    if |word| == 0 then word else [Ascii.ToUpper(word[0])] + word[1..]
  }

  function CapitalizeAll(words: seq<string>): (r: seq<string>)
    ensures |r| == |words|
    ensures forall i :: 0 <= i < |words| ==> r[i] == Capitalize(words[i])
  {
    seq(|words|, i requires 0 <= i < |words| => Capitalize(words[i]))
  }

  /** The Projects card title, computed as the page does: replace, split, capitalise, join. */
  function TitleCase(name: string): string {
    Join(CapitalizeAll(Split(SpaceSeparators(name))))
  }

  /** Position `i` of `s` starts a space-separated word. */
  predicate StartsWord(s: string, i: int)
    requires 0 <= i < |s|
  {
    i == 0 || s[i - 1] == ' '
  }

  /**
   * Reference definition of title casing, character by character: upper-case the
   * character when `atStart` holds, and a word starts after every space.
   */
  function UpcaseWordStarts(s: string, atStart: bool): (r: string)
    ensures |r| == |s|
  {
    if |s| == 0 then ""
    else [if atStart then Ascii.ToUpper(s[0]) else s[0]] + UpcaseWordStarts(s[1..], s[0] == ' ')
  }

  /** The reference definition upper-cases exactly the characters that start a word. */
  lemma {:induction false} UpcaseWordStartsAt(s: string, atStart: bool)
    ensures forall i :: 0 <= i < |s| ==>
      UpcaseWordStarts(s, atStart)[i]
        == if (i == 0 && atStart) || (i > 0 && s[i - 1] == ' ') then Ascii.ToUpper(s[i]) else s[i]
    decreases |s|
  {
    if |s| > 0 {
      UpcaseWordStartsAt(s[1..], s[0] == ' ');
      var r := UpcaseWordStarts(s, atStart);
      forall i | 0 < i < |s|
        ensures r[i] == if s[i - 1] == ' ' then Ascii.ToUpper(s[i]) else s[i]
      {
        assert r[i] == UpcaseWordStarts(s[1..], s[0] == ' ')[i - 1];
        assert s[1..][i - 1] == s[i];
        if i > 1 {
          assert s[1..][i - 2] == s[i - 1];
        }
      }
    }
  }

  /** Joining a word list whose first word is `prefix + w`: the prefix comes out first. */
  lemma JoinPrefix(prefix: string, w: string, rest: seq<string>)
    ensures Join([prefix + w] + rest) == prefix + Join([w] + rest)
  {
    var ws := [prefix + w] + rest;
    assert ws[1..] == rest;
    assert ([w] + rest)[1..] == rest;
  }

  lemma CapitalizeAllCons(w: string, ws: seq<string>)
    ensures CapitalizeAll([w] + ws) == [Capitalize(w)] + CapitalizeAll(ws)
  {
    assert forall i :: 0 < i < |ws| + 1 ==> ([w] + ws)[i] == ws[i - 1];
  }

  /** The step of `SplitCapitalizeJoin` for a string that starts with a space. */
  lemma SplitCapitalizeJoinSpace(s: string)
    requires |s| > 0 && s[0] == ' '
    requires Join(CapitalizeAll(Split(s[1..]))) == UpcaseWordStarts(s[1..], true)
    ensures Join(CapitalizeAll(Split(s))) == UpcaseWordStarts(s, true)
    ensures Join([Split(s)[0]] + CapitalizeAll(Split(s)[1..])) == UpcaseWordStarts(s, false)
  {
    var t := s[1..];
    var rest := Split(t);
    var caps := CapitalizeAll(rest);
    var words := Split(s);
    assert words == [""] + rest;
    assert words[0] == "" && words[1..] == rest;
    CapitalizeAllCons("", rest);
    assert Join([""] + caps) == " " + Join(caps);
    assert UpcaseWordStarts(s, true) == [' '] + UpcaseWordStarts(t, true);
    assert UpcaseWordStarts(s, false) == [' '] + UpcaseWordStarts(t, true);
  }

  /** The step of `SplitCapitalizeJoin` for a string that starts inside a word. */
  lemma SplitCapitalizeJoinWord(s: string)
    requires |s| > 0 && s[0] != ' '
    requires Join([Split(s[1..])[0]] + CapitalizeAll(Split(s[1..])[1..])) == UpcaseWordStarts(s[1..], false)
    ensures Join(CapitalizeAll(Split(s))) == UpcaseWordStarts(s, true)
    ensures Join([Split(s)[0]] + CapitalizeAll(Split(s)[1..])) == UpcaseWordStarts(s, false)
  {
    var c, t := s[0], s[1..];
    var rest := Split(t);
    var w0, tail := rest[0], rest[1..];
    var tailCaps := CapitalizeAll(tail);
    var words := Split(s);
    assert words == [[c] + w0] + tail;
    assert words[0] == [c] + w0 && words[1..] == tail;
    CapitalizeAllCons([c] + w0, tail);
    assert Capitalize([c] + w0) == [Ascii.ToUpper(c)] + w0;
    JoinPrefix([Ascii.ToUpper(c)], w0, tailCaps);
    JoinPrefix([c], w0, tailCaps);
    assert UpcaseWordStarts(s, true) == [Ascii.ToUpper(c)] + UpcaseWordStarts(t, false);
    assert UpcaseWordStarts(s, false) == [c] + UpcaseWordStarts(t, false);
  }

  /**
   * Split, capitalise and join agrees with the reference definition, both for the whole
   * title and for the title whose first word is left as it is.
   */
  lemma {:induction false} SplitCapitalizeJoin(s: string)
    ensures Join(CapitalizeAll(Split(s))) == UpcaseWordStarts(s, true)
    ensures Join([Split(s)[0]] + CapitalizeAll(Split(s)[1..])) == UpcaseWordStarts(s, false)
    decreases |s|
  {
    if |s| == 0 {
      assert CapitalizeAll([""]) == [""];
      assert [""] + CapitalizeAll([]) == [""];
    } else {
      SplitCapitalizeJoin(s[1..]);
      if s[0] == ' ' {
        SplitCapitalizeJoinSpace(s);
      } else {
        SplitCapitalizeJoinWord(s);
      }
    }
  }

  /**
   * The Projects title has the name's length; it upper-cases each character that starts
   * a space-separated word of the separator-replaced name and keeps every other one.
   */
  lemma TitleCaseSpec(name: string)
    ensures |TitleCase(name)| == |name|
    ensures forall i :: 0 <= i < |name| ==>
      var spaced := SpaceSeparators(name);
      TitleCase(name)[i] == if StartsWord(spaced, i) then Ascii.ToUpper(spaced[i]) else spaced[i]
  {
    var spaced := SpaceSeparators(name);
    SplitCapitalizeJoin(spaced);
    UpcaseWordStartsAt(spaced, true);
  }

  /** Splitting on spaces and joining with spaces gives back the string. */
  lemma {:induction false} JoinSplit(s: string)
    ensures Join(Split(s)) == s
    decreases |s|
  {
    if |s| > 0 {
      JoinSplit(s[1..]);
      var rest := Split(s[1..]);
      if s[0] == ' ' {
        assert ([""] + rest)[1..] == rest;
      } else {
        JoinPrefix([s[0]], rest[0], rest[1..]);
        assert [rest[0]] + rest[1..] == rest;
      }
    }
  }

  /** Formatting an already formatted title changes nothing. */
  lemma TitleCaseIdempotent(name: string)
    ensures TitleCase(TitleCase(name)) == TitleCase(name)
  {
    var t := TitleCase(name);
    var spaced := SpaceSeparators(name);
    TitleCaseSpec(name);
    TitleCaseSpec(t);
    var spaced2 := SpaceSeparators(t);
    forall i | 0 <= i < |t|
      ensures spaced2[i] == t[i]
      ensures (t[i] == ' ') == (spaced[i] == ' ')
    {
    }
    forall i | 0 <= i < |t|
      ensures TitleCase(t)[i] == t[i]
    {
      if i > 0 {
        assert (spaced2[i - 1] == ' ') == (spaced[i - 1] == ' ');
      }
    }
  }

  /** The Home title is the name with separators turned into spaces; it is stable under reformatting. */
  lemma SpaceSeparatorsIdempotent(name: string)
    ensures SpaceSeparators(SpaceSeparators(name)) == SpaceSeparators(name)
  {
  }

  /** JavaScript's `text || fallback` for an optional text: null and "" are both falsy. */
  function OrElse(text: Option<string>, fallback: string): (r: string)
    ensures text.None? || text == Some("") ==> r == fallback
    ensures text.Some? && text.value != "" ==> r == text.value
  {
    match text
    case Some(t) => if t != "" then t else fallback
    case None => fallback
  }

  /** `repo.homepage && <link>`: the live link appears only for a non-empty homepage. */
  function LiveLink(homepage: Option<string>): (r: Option<string>)
    ensures r.Some? <==> homepage.Some? && homepage.value != ""
    ensures r.Some? ==> r == homepage
  {
    match homepage
    case Some(h) => if h != "" then Some(h) else None
    case None => None
  }

  const HomeNoDescription: string := "No description available."
  const ProjectsNoDescription: string := "No description provided."
  const NoLanguage: string := "Code"

  /** A Home featured-project card. `key` is the repository id. */
  datatype HomeCard = HomeCard(key: int, title: string, description: string, sourceUrl: string, liveDemo: Option<string>)

  /** A Projects card with its metrics. `key` is the repository id. */
  datatype ProjectCard = ProjectCard(
    key: int,
    title: string,
    description: string,
    stars: int,
    forks: int,
    openIssues: int,
    language: string,
    sourceUrl: string,
    live: Option<string>)

  function HomeCardOf(r: Repo): HomeCard {
    HomeCard(r.id, SpaceSeparators(r.name), OrElse(r.description, HomeNoDescription), r.htmlUrl, LiveLink(r.homepage))
  }

  function ProjectCardOf(r: Repo): ProjectCard {
    ProjectCard(r.id, TitleCase(r.name), OrElse(r.description, ProjectsNoDescription),
      r.stars, r.forks, r.openIssues, OrElse(r.language, NoLanguage), r.htmlUrl, LiveLink(r.homepage))
  }

  /**
   * A Projects card falls back to "No description provided." and "Code" exactly when the
   * description or the language is missing or empty; its key is the untouched id.
   */
  lemma ProjectCardFallbacks(r: Repo)
    ensures ProjectCardOf(r).key == r.id
    ensures ProjectCardOf(r).description == ProjectsNoDescription
      <== r.description.None? || r.description == Some("")
    ensures r.description.Some? && r.description.value != "" ==> ProjectCardOf(r).description == r.description.value
    ensures ProjectCardOf(r).language == NoLanguage <== r.language.None? || r.language == Some("")
    ensures r.language.Some? && r.language.value != "" ==> ProjectCardOf(r).language == r.language.value
    ensures |ProjectCardOf(r).title| == |r.name|
  {
    TitleCaseSpec(r.name);
  }

  /** A Home card falls back to "No description available." and its title keeps the name's length. */
  lemma HomeCardFallbacks(r: Repo)
    ensures HomeCardOf(r).key == r.id
    ensures HomeCardOf(r).description == HomeNoDescription <== r.description.None? || r.description == Some("")
    ensures r.description.Some? && r.description.value != "" ==> HomeCardOf(r).description == r.description.value
    ensures |HomeCardOf(r).title| == |r.name|
  {
  }
}
