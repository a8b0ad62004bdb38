/** The blog views: related posts and paragraph splitting on
    frontend/src/pages/BlogDetailsPage.jsx, the excerpt of
    frontend/src/components/Blog/BlogCard.jsx, and the rows and preview
    slugs of the seller's table in frontend/src/components/Shop/AllBlogs.jsx.
    Strings are sequences of characters; JavaScript counts UTF-16 code
    units, which agree with characters outside the astral planes. */
module Blogs {
  import opened Basics
  import Seqs

  datatype Blog = Blog(id: string, category: string)

  // ---------------------------------------------------------------------
  // Related posts.

  /** The posts other than `id` that share `category`. */
  function SameCategory(allBlogs: seq<Blog>, id: string, category: string): (r: seq<Blog>)
    ensures forall i :: 0 <= i < |r| ==> r[i].id != id && r[i].category == category
    ensures forall b :: b in r <==> b in allBlogs && b.id != id && b.category == category
    ensures Seqs.IsSubsequence(r, allBlogs)
  {
    var keep := (b: Blog) => b.id != id && b.category == category;
    Seqs.FilterKeepsExactly(allBlogs, keep);
    Seqs.Filter(allBlogs, keep)
  }

  /** The related-posts state after the details load: recomputed only when
      the list of all posts is loaded and non-empty, as the first three
      posts of `SameCategory` in list order; otherwise the previous value
      stays. */
  function Related(allBlogs: Option<seq<Blog>>, id: string, category: string, previous: seq<Blog>): (r: seq<Blog>)
    ensures allBlogs.None? || allBlogs.value == [] ==> r == previous
    ensures allBlogs.Some? && allBlogs.value != [] ==>
              var all := SameCategory(allBlogs.value, id, category);
              |r| == Min(3, |all|) && r == all[..|r|]
  {
    if allBlogs.Some? && |allBlogs.value| > 0 then
      Seqs.Take(SameCategory(allBlogs.value, id, category), 3)
    else previous
  }

  /** Once recomputed, there are at most three related posts, none is the
      current one, all share its category, and they appear in list order. */
  lemma RelatedAreSameCategoryOthers(allBlogs: seq<Blog>, id: string, category: string, previous: seq<Blog>)
    requires allBlogs != []
    ensures var r := Related(Some(allBlogs), id, category, previous);
            |r| <= 3 && Seqs.IsSubsequence(r, allBlogs) &&
            forall i :: 0 <= i < |r| ==> r[i].id != id && r[i].category == category
  {
    var all := SameCategory(allBlogs, id, category);
    var r := Related(Some(allBlogs), id, category, previous);
    Seqs.FilterIsSubsequence(allBlogs, (b: Blog) => b.id != id && b.category == category);
    PrefixIsSubsequence(all, |r|);
    SubsequenceTrans(r, all, allBlogs);
  }

  lemma {:induction false} PrefixIsSubsequence<T>(s: seq<T>, n: nat)
    requires n <= |s|
    ensures Seqs.IsSubsequence(s[..n], s)
    decreases |s|
  {
    if n == 0 {
      EmptyIsSubsequence(s);
    } else {
      PrefixIsSubsequence(s[1..], n - 1);
      assert s[1..][..n - 1] == s[..n][1..];
    }
  }

  lemma {:induction false} EmptyIsSubsequence<T>(s: seq<T>)
    ensures Seqs.IsSubsequence([], s)
  {
    if s != [] {
      EmptyIsSubsequence(s[1..]);
    }
  }

  lemma {:induction false} SubsequenceTrans<T>(a: seq<T>, b: seq<T>, c: seq<T>)
    requires Seqs.IsSubsequence(a, b) && Seqs.IsSubsequence(b, c)
    ensures Seqs.IsSubsequence(a, c)
    decreases |c|
  {
    if a == [] {
      EmptyIsSubsequence(c);
    } else if c != [] {
      if b != [] && b[0] == c[0] {
        if a[0] == b[0] {
          SubsequenceTrans(a[1..], b[1..], c[1..]);
        } else {
          SubsequenceTrans(a, b[1..], c[1..]);
          Seqs.SubsequenceSkip(a, c);
        }
      } else {
        SubsequenceTrans(a, b, c[1..]);
        Seqs.SubsequenceSkip(a, c);
      }
    }
  }

  // ---------------------------------------------------------------------
  // Paragraphs.

  /** The number of times `c` occurs in `s`. */
  function Occurrences(s: string, c: char): nat {
    if s == [] then 0 else (if s[0] == c then 1 else 0) + Occurrences(s[1..], c)
  }

  /** `s.split(sep)` for a one-character separator. */
  function Split(s: string, sep: char): (pieces: seq<string>)
    ensures |pieces| == Occurrences(s, sep) + 1
    ensures forall i, k :: 0 <= i < |pieces| && 0 <= k < |pieces[i]| ==> pieces[i][k] != sep
  {
    if s == [] then [""]
    else
      var rest := Split(s[1..], sep);
      if s[0] == sep then [""] + rest
      else [[s[0]] + rest[0]] + rest[1..]
  }

  /** Joining with the separator. */
  function Join(pieces: seq<string>, sep: char): string
    requires |pieces| >= 1
  {
    if |pieces| == 1 then pieces[0] else pieces[0] + [sep] + Join(pieces[1..], sep)
  }

  /** Joining the pieces back gives the content. */
  lemma {:induction false} SplitJoin(s: string, sep: char)
    ensures Join(Split(s, sep), sep) == s
  {
    if s != [] {
      SplitJoin(s[1..], sep);
      var rest := Split(s[1..], sep);
      if s[0] != sep {
        var p := [[s[0]] + rest[0]] + rest[1..];
        if |rest| == 1 {
          assert Join(p, sep) == [s[0]] + rest[0];
        } else {
          assert p[1..] == rest[1..];
          assert Join(p, sep) == [s[0]] + (rest[0] + [sep] + Join(rest[1..], sep));
        }
      }
    }
  }

  datatype Block = Paragraph(text: string) | LineBreak

  /** Non-empty pieces become paragraphs, empty ones line breaks. */
  function Blocks(content: string): (r: seq<Block>)
    ensures |r| == Occurrences(content, '\n') + 1
    ensures forall i :: 0 <= i < |r| ==>
              r[i] == if Split(content, '\n')[i] == "" then LineBreak else Paragraph(Split(content, '\n')[i])
  {
    var pieces := Split(content, '\n');
    seq(|pieces|, i requires 0 <= i < |pieces| => if pieces[i] == "" then LineBreak else Paragraph(pieces[i]))
  }

  /** Reading the blocks back in order, with a newline between them, gives
      the content: no character is lost or added. */
  lemma BlocksKeepContent(content: string)
    ensures var r := Blocks(content);
            Join(seq(|r|, i requires 0 <= i < |r| => if r[i].LineBreak? then "" else r[i].text), '\n') == content
  {
    var r := Blocks(content);
    var back := seq(|r|, i requires 0 <= i < |r| => if r[i].LineBreak? then "" else r[i].text);
    assert back == Split(content, '\n');
    SplitJoin(content, '\n');
  }

  // ---------------------------------------------------------------------
  // Excerpt.

  const ExcerptLength := 150

  /** The first 150 characters and "..." for longer content, else the
      content itself. */
  function Excerpt(content: string): (r: string)
    ensures |content| <= ExcerptLength ==> r == content
    ensures |content| > ExcerptLength ==> r == content[..ExcerptLength] + "..."
    ensures |r| <= ExcerptLength + 3
    ensures r[..Min(ExcerptLength, |content|)] == content[..Min(ExcerptLength, |content|)]
  {
    if |content| > ExcerptLength then content[..ExcerptLength] + "..." else content
  }

  // ---------------------------------------------------------------------
  // Seller's table.

  /** A post as loaded: any field may be missing. */
  datatype BlogDoc = BlogDoc(id: string, title: Option<string>, author: Option<string>, status: Option<string>,
                             views: Option<int>, createdAt: Option<int>)

  datatype Row = Row(id: string, title: string, author: string, status: string, views: int, createdAt: int)

  /** `s || fallback` for a string field. */
  function OrText(s: Option<string>, fallback: string): (r: string)
    ensures s.Some? && s.value != "" ==> r == s.value
    ensures s.None? || s.value == "" ==> r == fallback
  {
    if s.Some? && s.value != "" then s.value else fallback
  }

  /** One row: falsy title, author, status and views fall back to
      "No title", "Unknown", "Draft" and 0; a missing date to `now`. */
  function RowFor(b: BlogDoc, now: int): (r: Row)
    ensures r.id == b.id
    ensures r.title == OrText(b.title, "No title") && r.author == OrText(b.author, "Unknown")
    ensures r.status == OrText(b.status, "Draft")
    ensures r.views == (if b.views.Some? && b.views.value != 0 then b.views.value else 0)
    ensures r.createdAt == (if b.createdAt.Some? then b.createdAt.value else now)
  {
    Row(b.id, OrText(b.title, "No title"), OrText(b.author, "Unknown"), OrText(b.status, "Draft"),
        if b.views.Some? then b.views.value else 0,
        if b.createdAt.Some? then b.createdAt.value else now)
  }

  /** One row per post, in order; none when the posts are not an array. */
  function Rows(blogs: Option<seq<BlogDoc>>, now: int): (r: seq<Row>)
    ensures blogs.None? ==> r == []
    ensures blogs.Some? ==> |r| == |blogs.value| && forall i :: 0 <= i < |r| ==> r[i] == RowFor(blogs.value[i], now)
  {
    if blogs.None? then [] else seq(|blogs.value|, i requires 0 <= i < |blogs.value| => RowFor(blogs.value[i], now))
  }

  /** The characters `\s` matches: tab to carriage return, space,
      no-break space, ogham space mark, the spaces U+2000 to U+200A, the
      line and paragraph separators, narrow no-break space, medium
      mathematical space, ideographic space and the byte order mark. */
  predicate IsSpace(c: char) {
    ('\U{0009}' <= c <= '\U{000D}') || c == '\U{0020}' || c == '\U{00A0}' || c == '\U{1680}' ||
    ('\U{2000}' <= c <= '\U{200A}') || c == '\U{2028}' || c == '\U{2029}' || c == '\U{202F}' ||
    c == '\U{205F}' || c == '\U{3000}' || c == '\U{FEFF}'
  }

  /** `s` with its leading whitespace removed. */
  function DropSpaces(s: string): (r: string)
    ensures |r| <= |s| && r == s[|s| - |r|..]
    ensures r == [] || !IsSpace(r[0])
    ensures forall i :: 0 <= i < |s| - |r| ==> IsSpace(s[i])
  {
    if s != [] && IsSpace(s[0]) then
      var r := DropSpaces(s[1..]);
      assert forall i :: 1 <= i < |s| - |r| ==> s[i] == s[1..][i - 1];
      r
    else s
  }

  /** `title.replace(/\s+/g, "-")`: each maximal run of whitespace becomes
      one "-". */
  function Slug(title: string): (r: string)
    ensures forall i :: 0 <= i < |r| ==> !IsSpace(r[i])
    decreases |title|
  {
    if title == [] then []
    else if IsSpace(title[0]) then "-" + Slug(DropSpaces(title[1..]))
    else [title[0]] + Slug(title[1..])
  }

  /** The title's non-whitespace characters appear in the slug in order. */
  lemma {:induction false} SlugKeepsText(title: string)
    ensures Seqs.IsSubsequence(Seqs.Filter(title, (c: char) => !IsSpace(c)), Slug(title))
    decreases |title|
  {
    var p := (c: char) => !IsSpace(c);
    if title != [] {
      if IsSpace(title[0]) {
        var rest := DropSpaces(title[1..]);
        SlugKeepsText(rest);
        SpaceRunFiltersAway(title[1..], p);
        assert !p(title[0]);
        assert Seqs.Filter(title, p) == Seqs.Filter(rest, p);
        assert Slug(title)[1..] == Slug(rest);
        Seqs.SubsequenceSkip(Seqs.Filter(rest, p), Slug(title));
      } else {
        SlugKeepsText(title[1..]);
        assert Seqs.Filter(title, p) == [title[0]] + Seqs.Filter(title[1..], p);
        assert Slug(title)[1..] == Slug(title[1..]);
      }
    }
  }

  /** A leading run of whitespace, which the slug turns into one `-`,
      contributes nothing to the title's text. */
  lemma {:induction false} SpaceRunFiltersAway(s: string, p: char -> bool)
    requires forall c :: p(c) <==> !IsSpace(c)
    ensures Seqs.Filter(DropSpaces(s), p) == Seqs.Filter(s, p)
    decreases |s|
  {
    if s != [] && IsSpace(s[0]) {
      SpaceRunFiltersAway(s[1..], p);
      assert !p(s[0]);
    }
  }

  /** A whitespace run followed by a non-space (or the end) is dropped
      whole. */
  lemma {:induction false} DropSpacesRun(sp: string, rest: string)
    requires forall i :: 0 <= i < |sp| ==> IsSpace(sp[i])
    requires rest == [] || !IsSpace(rest[0])
    ensures DropSpaces(sp + rest) == rest
    decreases |sp|
  {
    if sp == [] {
      assert sp + rest == rest;
    } else {
      assert (sp + rest)[1..] == sp[1..] + rest;
      DropSpacesRun(sp[1..], rest);
    }
  }

  /** A non-space character is kept as it is. */
  lemma SlugCons(c: char, t: string)
    requires !IsSpace(c)
    ensures Slug([c] + t) == [c] + Slug(t)
  {
    assert ([c] + t)[1..] == t;
  }

  /** A whitespace run in front of a non-space (or the end) becomes one
      hyphen. */
  lemma SlugSpaceRun(sp: string, rest: string)
    requires |sp| > 0 && forall i :: 0 <= i < |sp| ==> IsSpace(sp[i])
    requires rest == [] || !IsSpace(rest[0])
    ensures Slug(sp + rest) == "-" + Slug(rest)
  {
    var t := sp + rest;
    assert t[0] == sp[0] && IsSpace(t[0]);
    assert t[1..] == sp[1..] + rest;
    DropSpacesRun(sp[1..], rest);
    assert Slug(t) == "-" + Slug(DropSpaces(t[1..]));
  }

  /** The `/\s+/g` rule: a word, then a non-empty run of whitespace,
      then the rest becomes the word, one hyphen, and the slug of the
      rest. */
  lemma {:induction false} SlugRunRule(w: string, sp: string, rest: string)
    requires forall i :: 0 <= i < |w| ==> !IsSpace(w[i])
    requires |sp| > 0 && forall i :: 0 <= i < |sp| ==> IsSpace(sp[i])
    requires rest == [] || !IsSpace(rest[0])
    ensures Slug(w + sp + rest) == w + "-" + Slug(rest)
    decreases |w|
  {
    if w == [] {
      assert w + sp + rest == sp + rest;
      SlugSpaceRun(sp, rest);
    } else {
      var t := w[1..] + sp + rest;
      assert w + sp + rest == [w[0]] + t;
      SlugCons(w[0], t);
      SlugRunRule(w[1..], sp, rest);
      assert w + "-" + Slug(rest) == [w[0]] + (w[1..] + "-" + Slug(rest));
    }
  }

  /** A title without whitespace is its own slug, so slugs are fixed
      points. */
  lemma {:induction false} SlugOfCleanTitle(title: string)
    requires forall i :: 0 <= i < |title| ==> !IsSpace(title[i])
    ensures Slug(title) == title
    decreases |title|
  {
    if title != [] {
      SlugOfCleanTitle(title[1..]);
    }
  }

  /** The preview link of a row uses the defaulted title. */
  function PreviewPath(row: Row): (path: string)
    ensures |path| >= 6 && path[..6] == "/blog/"
    ensures forall i :: 6 <= i < |path| ==> !IsSpace(path[i])
  {
    "/blog/" + Slug(row.title)
  }
}
