/**
 * The redirect target after a product is added to the cart: back to the referring page
 * (or to "/" when there is none, or when it is a cart page), with the query flag
 * "added=1" appended using "?" or "&" as the page's URL requires.
 */
module Redirect {
  import opened Wrappers

  /** `sub` occurs in `s` starting at index i. */
  predicate OccursAt(s: string, sub: string, i: int) {
    0 <= i && i + |sub| <= |s| && s[i..i + |sub|] == sub
  }

  /** String.prototype.includes. */
  predicate Contains(s: string, sub: string) {
    exists i :: 0 <= i <= |s| && OccursAt(s, sub, i)
  }

  /** `req.get("referer") || "/"`: an absent or empty Referer header means the home page. */
  function Back(referer: Option<string>): string {
    match referer
    case Some(r) => if r == "" then "/" else r
    case None => "/"
  }

  /** A referring cart page is replaced by the home page. */
  function Destination(back: string): string {
    if Contains(back, "/cart") then "/" else back
  }

  function AddedFlag(dest: string): string {
    if Contains(dest, "?") then "&added=1" else "?added=1"
  }

  function AfterAdd(referer: Option<string>): string {
    var dest := Destination(Back(referer));
    dest + AddedFlag(dest)
  }

  lemma ContainsInPrefix(a: string, b: string, sub: string)
    requires Contains(a, sub)
    ensures Contains(a + b, sub)
  {
    var i :| 0 <= i <= |a| && OccursAt(a, sub, i);
    assert (a + b)[i..i + |sub|] == a[i..i + |sub|];
    assert OccursAt(a + b, sub, i);
  }

  /** A non-empty pattern whose first character never appears in s does not occur in s. */
  lemma FirstCharAbsent(s: string, sub: string)
    requires sub != [] && forall j :: 0 <= j < |s| ==> s[j] != sub[0]
    ensures !Contains(s, sub)
  {
    forall i | 0 <= i <= |s| && i + |sub| <= |s|
      ensures !OccursAt(s, sub, i)
    {
      assert s[i..i + |sub|][0] == s[i];
    }
  }

  /**
   * No occurrence can straddle the seam of a + b when b's first character does not
   * appear in the pattern at all.
   */
  lemma ConcatAvoids(a: string, b: string, sub: string)
    requires sub != [] && b != [] && b[0] !in sub
    requires !Contains(a, sub) && !Contains(b, sub)
    ensures !Contains(a + b, sub)
  {
    var ab := a + b;
    forall i | 0 <= i <= |ab| && i + |sub| <= |ab|
      ensures !OccursAt(ab, sub, i)
    {
      if i + |sub| <= |a| {
        assert ab[i..i + |sub|] == a[i..i + |sub|];
        assert !OccursAt(a, sub, i);
      } else if i >= |a| {
        assert ab[i..i + |sub|] == b[i - |a|..i - |a| + |sub|];
        assert !OccursAt(b, sub, i - |a|);
      } else {
        assert ab[i..i + |sub|][|a| - i] == b[0];
        assert sub[|a| - i] != b[0];
      }
    }
  }

  /** The redirect after an add never leads back to a cart page. */
  lemma AfterAddNeverCart(referer: Option<string>)
    ensures !Contains(AfterAdd(referer), "/cart")
  {
    var back := Back(referer);
    var dest := Destination(back);
    var flag := AddedFlag(dest);
    if Contains(back, "/cart") {
      assert !OccursAt("/", "/cart", 0) && !OccursAt("/", "/cart", 1);
    }
    FirstCharAbsent(flag, "/cart");
    ConcatAvoids(dest, flag, "/cart");
  }

  /**
   * The redirect keeps the referring page (the home page when there is none or it is a
   * cart page), appends exactly one flag, ends in "added=1" and always carries a query.
   */
  lemma AfterAddShape(referer: Option<string>)
    ensures var back := Back(referer);
            var url := AfterAdd(referer);
            var dest := if Contains(back, "/cart") then "/" else back;
            |url| == |dest| + 8 && url[..|dest|] == dest &&
            url[|url| - 7..] == "added=1" && Contains(url, "?") &&
            (url[|dest|] == '&' <==> Contains(dest, "?"))
  {
    var back := Back(referer);
    var dest := Destination(back);
    var url := AfterAdd(referer);
    assert url[..|dest|] == dest;
    assert url[|url| - 7..] == "added=1";
    if Contains(dest, "?") {
      ContainsInPrefix(dest, AddedFlag(dest), "?");
    } else {
      assert url[|dest|..|dest| + 1] == "?";
      assert OccursAt(url, "?", |dest|);
    }
  }
}
