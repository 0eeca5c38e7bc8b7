/**
 * The template picker of src/client/components/AddLinkModal.tsx: a
 * case-insensitive substring search over the templates, and the initial
 * form data built from the chosen template.
 */
module AddLinkModal {
  import opened Wrappers
  import opened LinkEditForm

  /** A preset of src/client/config/linkTemplates.ts. */
  datatype LinkTemplate = LinkTemplate(
    name: string,
    icon: string,
    color: string,
    urlPrefix: Option<string>,
    placeholder: Option<string>)

  /** `toLowerCase` on one character, for the ASCII letters. */
  function LowerChar(c: char): char {
    if 'A' <= c <= 'Z' then (c as int + 32) as char else c
  }

  function ToLower(s: string): (r: string)
    ensures |r| == |s|
    ensures forall i :: 0 <= i < |s| ==> r[i] == LowerChar(s[i])
  {
    if s == [] then [] else [LowerChar(s[0])] + ToLower(s[1..])
  }

  /** `t` occurs in `s` starting at position i. */
  predicate OccursAt(s: string, t: string, i: int) {
    0 <= i && i + |t| <= |s| && s[i..i + |t|] == t
  }

  /** `s.includes(t)`: tries every starting position from the left. */
  function Includes(s: string, t: string): (r: bool)
    ensures r ==> |t| <= |s|
    ensures t == [] ==> r
    ensures |t| <= |s| && s[..|t|] == t ==> r
    decreases |s|
  {
    if |t| > |s| then false
    else if s[..|t|] == t then true
    else Includes(s[1..], t)
  }

  lemma {:induction false} IncludesIff(s: string, t: string)
    ensures Includes(s, t) <==> exists i :: OccursAt(s, t, i)
  {
    if |t| > |s| {
    } else if s[..|t|] == t {
      assert OccursAt(s, t, 0);
    } else {
      assert s[0..|t|] == s[..|t|];
      IncludesIff(s[1..], t);
      if Includes(s[1..], t) {
        var i :| OccursAt(s[1..], t, i);
        assert s[1..][i..i + |t|] == s[i + 1..i + 1 + |t|];
        assert OccursAt(s, t, i + 1);
      } else {
        forall i | OccursAt(s, t, i)
          ensures false
        {
          assert i != 0;
          assert s[1..][i - 1..i - 1 + |t|] == s[i..i + |t|];
          assert OccursAt(s[1..], t, i - 1);
        }
      }
    }
  }

  /** The filter's test: the lower-cased name includes the lower-cased query. */
  predicate Matches(t: LinkTemplate, query: string) {
    Includes(ToLower(t.name), ToLower(query))
  }

  /** `filteredTemplates`: the templates that pass the test, in their order. */
  function FilterTemplates(ts: seq<LinkTemplate>, query: string): (r: seq<LinkTemplate>)
    ensures forall t :: t in r <==> t in ts && Matches(t, query)
    ensures forall t :: multiset(r)[t] == if Matches(t, query) then multiset(ts)[t] else 0
    ensures |r| <= |ts|
  {
    if ts == [] then []
    else
      assert ts == [ts[0]] + ts[1..];
      var rest := FilterTemplates(ts[1..], query);
      if Matches(ts[0], query) then [ts[0]] + rest else rest
  }

  /** `r` is `s` with some elements dropped and the rest in their order. */
  predicate IsSubsequence<T(==)>(r: seq<T>, s: seq<T>)
    decreases |s|
  {
    r == [] || (s != [] && ((r[0] == s[0] && IsSubsequence(r[1..], s[1..])) || IsSubsequence(r, s[1..])))
  }

  lemma {:induction false} FilterIsSubsequence(ts: seq<LinkTemplate>, query: string)
    ensures IsSubsequence(FilterTemplates(ts, query), ts)
  {
    if ts != [] {
      FilterIsSubsequence(ts[1..], query);
    }
  }

  /** An empty search box shows every template. */
  lemma {:induction false} EmptyQueryKeepsAll(ts: seq<LinkTemplate>)
    ensures FilterTemplates(ts, "") == ts
  {
    if ts != [] {
      EmptyQueryKeepsAll(ts[1..]);
      assert ts == [ts[0]] + ts[1..];
    }
  }

  /** Two queries that differ only in the case of letters select the same templates. */
  lemma {:induction false} SearchIgnoresCase(ts: seq<LinkTemplate>, q1: string, q2: string)
    requires |q1| == |q2|
    requires forall i :: 0 <= i < |q1| ==> LowerChar(q1[i]) == LowerChar(q2[i])
    ensures FilterTemplates(ts, q1) == FilterTemplates(ts, q2)
  {
    assert ToLower(q1) == ToLower(q2);
    if ts != [] {
      SearchIgnoresCase(ts[1..], q1, q2);
    }
  }

  /**
   * The `initialData` handed to the form: `urlPrefix || ''` as the url and
   * the template's name, icon and color as they are.
   */
  function InitialData(t: LinkTemplate): (f: FormData)
    ensures f.name == t.name && f.icon == t.icon && f.color == t.color
    ensures t.urlPrefix.Some? ==> f.url == t.urlPrefix.value
    ensures t.urlPrefix.None? ==> f.url == ""
  {
    // An empty prefix is falsy, so `''` is chosen; it is the same string.
    FormData(t.name, t.urlPrefix.GetOr(""), t.icon, t.color)
  }
}

/** A search over three of the presets of src/client/config/linkTemplates.ts. */
module AddLinkModalExample {
  import opened Wrappers
  import opened AddLinkModal

  /** Three of the presets. */
  const GitHub := LinkTemplate("GitHub", "\U{1F419}", "bg-gray-800", Some("https://github.com/"), Some("用户名"))
  const TikTok := LinkTemplate("TikTok", "\U{1F3B5}", "bg-black", Some("https://tiktok.com/@"), Some("用户名"))
  const Email := LinkTemplate("Email", "\U{1F4E7}", "bg-green-500", Some("mailto:"), Some("邮箱地址"))

  lemma GitHubMatches()
    ensures Matches(GitHub, "GITHUB")
  {
    assert ToLower("GITHUB") == "github";
    assert ToLower("GitHub") == "github";
  }

  lemma TikTokMisses()
    ensures !Matches(TikTok, "GITHUB")
  {
    assert ToLower("GITHUB") == "github";
    assert ToLower("TikTok") == "tiktok";
    assert "tiktok"[..6][0] != 'g';
  }

  lemma EmailMisses()
    ensures !Matches(Email, "GITHUB")
  {
    assert |ToLower("GITHUB")| == 6 && |ToLower("Email")| == 5;
  }

  /** Typing "GITHUB" finds GitHub only: the search ignores case. */
  lemma SearchExample()
    ensures FilterTemplates([GitHub, TikTok, Email], "GITHUB") == [GitHub]
  {
    GitHubMatches();
    TikTokMisses();
    EmailMisses();
    assert [Email][1..] == [];
    assert FilterTemplates([Email], "GITHUB") == [];
    assert [TikTok, Email][1..] == [Email];
    assert FilterTemplates([TikTok, Email], "GITHUB") == [];
    assert [GitHub, TikTok, Email][1..] == [TikTok, Email];
  }
}
