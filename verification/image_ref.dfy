/** Image references: how the operator composes one from a repository and a
    version, and how it reads the tag back. */
module ImageRef {

  const LATEST_TAG := "latest"

  predicate IsSpace(c: char) {
    c in "\t\n\r " || c as int in {0x0B, 0x0C, 0x85, 0xA0, 0x1680, 0x2028, 0x2029, 0x202F, 0x205F, 0x3000}
    || 0x2000 <= c as int <= 0x200A
  }

  function TrimLeft(s: string): (r: string)
    ensures |r| <= |s|
  {
    if s != "" && IsSpace(s[0]) then TrimLeft(s[1..]) else s
  }

  function TrimRight(s: string): (r: string)
    ensures |r| <= |s| && r == s[..|r|]
  {
    if s != "" && IsSpace(s[|s| - 1]) then TrimRight(s[..|s| - 1]) else s
  }

  function TrimSpace(s: string): string {
    TrimRight(TrimLeft(s))
  }

  /** No white space at either end. */
  predicate Trimmed(s: string) {
    s != "" ==> !IsSpace(s[0]) && !IsSpace(s[|s| - 1])
  }

  lemma {:induction false} TrimSpaceTrims(s: string)
    ensures Trimmed(TrimSpace(s))
  {
    TrimLeftTrims(s);
    TrimRightTrims(TrimLeft(s));
  }

  lemma {:induction false} TrimLeftTrims(s: string)
    ensures TrimLeft(s) != "" ==> !IsSpace(TrimLeft(s)[0])
  {
    if s != "" && IsSpace(s[0]) {
      TrimLeftTrims(s[1..]);
    }
  }

  lemma {:induction false} TrimRightTrims(s: string)
    ensures TrimRight(s) != "" ==> !IsSpace(TrimRight(s)[|TrimRight(s)| - 1])
  {
    if s != "" && IsSpace(s[|s| - 1]) {
      TrimRightTrims(s[..|s| - 1]);
    }
  }

  function Index(s: string, c: char): (r: int)
    ensures -1 <= r < |s|
    ensures r == -1 ==> c !in s
    ensures r >= 0 ==> s[r] == c && c !in s[..r]
  {
    if s == "" then -1
    else if s[0] == c then 0
    else
      var r := Index(s[1..], c);
      assert s == [s[0]] + s[1..];
      assert r >= 0 ==> s[..r + 1] == [s[0]] + s[1..][..r];
      if r >= 0 then r + 1 else -1
  }

  function LastIndex(s: string, c: char): (r: int)
    ensures -1 <= r < |s|
    ensures r == -1 ==> c !in s
    ensures r >= 0 ==> s[r] == c && forall k :: r < k < |s| ==> s[k] != c
  {
    if s == "" then -1
    else if s[|s| - 1] == c then |s| - 1
    else LastIndex(s[..|s| - 1], c)
  }

  // ---------- the code ----------

  function NormalizeVersionTag(version: string): string {
    var v := TrimSpace(version);
    if v == "" then LATEST_TAG
    else if v[0] == 'v' then v[1..] else v
  }

  function TagFor(version: string): string {
    if version == "" then LATEST_TAG else NormalizeVersionTag(version)
  }

  function ResolveComponentImage(imageField: string, version: string, defaultRepo: string): string {
    var img := TrimSpace(imageField);
    if img == "" then defaultRepo + ":" + TagFor(version)
    else if ':' in img then img
    else img + ":" + TagFor(version)
  }

  /** `tag` is what follows the last ':' of `image`, unless a '/' comes after it. */
  ghost predicate IsTagOf(image: string, tag: string) {
    || (tag == "" && forall k :: 0 <= k < |image| && image[k] == ':' ==> '/' in image[k..])
    || (':' !in tag && '/' !in tag && |tag| < |image| && image == image[..|image| - |tag| - 1] + ":" + tag)
  }

  /** The tag of what precedes a digest; there is only one string it can be. */
  method ImageTag(reference: string) returns (tag: string)
    ensures exists image :: '@' !in image && image <= TrimSpace(reference) && IsTagOf(image, tag)
              && (image == TrimSpace(reference) || TrimSpace(reference)[|image|] == '@')
    ensures tag == TagOf(reference)
  {
    hide TrimSpace, Index, LastIndex;
    var image := TrimSpace(reference);
    var at := Index(image, '@');
    if at >= 0 {
      image := image[..at];
    }
    var slash := LastIndex(image, '/');
    var colon := LastIndex(image, ':');
    assert '@' !in image && image <= TrimSpace(reference);
    if colon <= slash {
      assert forall k :: 0 <= k < |image| && image[k] == ':' ==> k <= slash && image[k..][slash - k] == '/';
      assert IsTagOf(image, "");
      return "";
    }
    tag := image[colon + 1..];
    assert image == image[..colon] + ":" + tag;
    assert IsTagOf(image, tag);
  }

  /** At most one string is the tag. */
  lemma TagIsUnique(image: string, a: string, b: string)
    requires IsTagOf(image, a) && IsTagOf(image, b)
    ensures a == b
  {
    if |a| <= |b| {
      LongerTagIsTheTag(image, a, b);
    } else {
      LongerTagIsTheTag(image, b, a);
    }
  }

  lemma LongerTagIsTheTag(image: string, short: string, long: string)
    requires IsTagOf(image, short) && IsTagOf(image, long) && |short| <= |long|
    ensures short == long
  {
    if long != "" {
      var k := |image| - |long| - 1;
      assert image[k] == ':' && image[k..] == [':'] + long;
      assert forall m :: k < m < |image| ==> image[m] == long[m - k - 1];
      assert image[|image| - |short| - 1] == ':';
      assert short == image[|image| - |short|..] && long == image[k + 1..];
    }
  }

  function BeforeDigest(image: string): string {
    if Index(image, '@') >= 0 then image[..Index(image, '@')] else image
  }

  function TagOf(reference: string): string {
    var image := BeforeDigest(TrimSpace(reference));
    if LastIndex(image, ':') <= LastIndex(image, '/') then "" else image[LastIndex(image, ':') + 1..]
  }

  // ---------- what is composed ----------

  predicate AllSpace(s: string) {
    forall c :: c in s ==> IsSpace(c)
  }

  lemma {:induction false} TrimLeftDrops(pre: string, s: string)
    requires AllSpace(pre) && (s != "" ==> !IsSpace(s[0]))
    ensures TrimLeft(pre + s) == s
  {
    if pre == "" {
      assert pre + s == s;
    } else {
      assert (pre + s)[0] == pre[0] && (pre + s)[1..] == pre[1..] + s;
      TrimLeftDrops(pre[1..], s);
    }
  }

  lemma {:induction false} TrimRightDrops(s: string, post: string)
    requires AllSpace(post) && (s != "" ==> !IsSpace(s[|s| - 1]))
    ensures TrimRight(s + post) == s
  {
    if post == "" {
      assert s + post == s;
    } else {
      assert (s + post)[..|s + post| - 1] == s + post[..|post| - 1];
      TrimRightDrops(s, post[..|post| - 1]);
    }
  }

  /** White space around a text is dropped, and nothing else. */
  lemma TrimSpaceDrops(pre: string, s: string, post: string)
    requires AllSpace(pre) && AllSpace(post) && Trimmed(s)
    ensures TrimSpace(pre + s + post) == s
  {
    if s == "" {
      assert AllSpace(pre + post) && pre + s + post == (pre + post) + "";
      TrimLeftDrops(pre + post, "");
    } else {
      assert pre + s + post == pre + (s + post);
      TrimLeftDrops(pre, s + post);
      TrimRightDrops(s, post);
    }
  }

  /** What an image field, a version and the default repository resolve to, with
      any white space around the first two: an image that names a tag or a port is
      taken as it is; otherwise the version is its tag, without a leading "v". */
  lemma ResolvesTo(pre: string, image: string, post: string, left: string, version: string, right: string, defaultRepo: string)
    requires AllSpace(pre) && AllSpace(post) && Trimmed(image)
    requires AllSpace(left) && AllSpace(right) && Trimmed(version)
    ensures var tag := if version == "" then "latest" else if version[0] == 'v' then version[1..] else version;
      ResolveComponentImage(pre + image + post, left + version + right, defaultRepo) ==
        if image == "" then defaultRepo + ":" + tag
        else if ':' in image then image
        else image + ":" + tag
  {
    TrimSpaceDrops(pre, image, post);
    TrimSpaceDrops(left, version, right);
    assert left + version + right == "" ==> version == "";
    hide TrimSpace;
  }

  // ---------- reading back what was composed ----------

  /** The repository a component resolves to when its image field has no tag. */
  function Repository(imageField: string, defaultRepo: string): string {
    if TrimSpace(imageField) == "" then defaultRepo else TrimSpace(imageField)
  }

  predicate PlainTag(tag: string) {
    '/' !in tag && ':' !in tag && '@' !in tag
  }

  lemma {:induction false} TrimmedIsKept(s: string)
    requires Trimmed(s)
    ensures TrimSpace(s) == s
  {
  }

  lemma TagIsTrimmed(version: string)
    ensures var tag := TagFor(version); tag != "" ==> !IsSpace(tag[|tag| - 1])
  {
    TrimSpaceTrims(version);
    assert LATEST_TAG[|LATEST_TAG| - 1] == 't';
  }

  lemma FirstIndex(s: string, c: char, k: nat)
    requires k < |s| && s[k] == c && c !in s[..k]
    ensures Index(s, c) == k
  {
  }

  /** A digest marker in the repository hides the tag. */
  lemma DigestInRepository(repo: string, tag: string)
    requires ':' !in repo && '@' in repo
    ensures LastIndex(BeforeDigest(repo + ":" + tag), ':') == -1
  {
    var image, at := repo + ":" + tag, Index(repo, '@');
    assert image[..at] == repo[..at];
    FirstIndex(image, '@', at);
    var cut := BeforeDigest(image);
    assert forall c :: c in cut ==> c in repo;
  }

  /** Without one, what is left of the tag is what precedes its own marker. */
  lemma DigestInTag(repo: string, tag: string)
    requires '@' !in repo
    ensures BeforeDigest(repo + ":" + tag) == repo + ":" + BeforeDigest(tag)
  {
    var image := repo + ":" + tag;
    if '@' in tag {
      var at := Index(tag, '@');
      var k := |repo| + 1 + at;
      assert image[..k] == repo + ":" + tag[..at];
      FirstIndex(image, '@', k);
    } else {
      assert '@' !in image;
    }
  }

  /** Reading the tag of a reference without digest. */
  lemma TagAfterColon(repo: string, rest: string)
    requires ':' !in repo
    ensures var cut := repo + ":" + rest;
      var colon, slash := LastIndex(cut, ':'), LastIndex(cut, '/');
      && colon >= |repo|
      && ('/' !in rest && ':' !in rest ==> colon == |repo| && slash < colon && cut[colon + 1..] == rest)
      && ('/' in rest && ':' !in rest ==> colon <= slash)
      && (':' in rest ==> |cut[colon + 1..]| < |rest|)
  {
    var cut := repo + ":" + rest;
    assert cut[|repo|] == ':' && cut[|repo| + 1..] == rest;
    assert forall k :: 0 <= k < |rest| ==> cut[|repo| + 1 + k] == rest[k];
    assert forall k :: |repo| < k < |cut| ==> cut[k] == rest[k - |repo| - 1];
    var colon, slash := LastIndex(cut, ':'), LastIndex(cut, '/');
    if ':' in rest {
      var k :| 0 <= k < |rest| && rest[k] == ':';
      assert cut[|repo| + 1 + k] == ':';
    }
    if '/' in rest {
      var k :| 0 <= k < |rest| && rest[k] == '/';
      assert cut[|repo| + 1 + k] == '/';
    }
  }

  lemma TagOfComposed(repo: string, tag: string)
    requires repo != "" && ':' !in repo && !IsSpace(repo[0])
    requires tag != "" ==> !IsSpace(tag[|tag| - 1])
    ensures TagOf(repo + ":" + tag) == tag <==> tag == "" || ('@' !in repo && PlainTag(tag))
  {
    var image := repo + ":" + tag;
    assert Trimmed(image) by {
      assert image[0] == repo[0];
      assert image[|image| - 1] == if tag == "" then ':' else tag[|tag| - 1];
    }
    TrimmedIsKept(image);
    if '@' in repo {
      DigestInRepository(repo, tag);
    } else {
      DigestInTag(repo, tag);
      TagAfterColon(repo, BeforeDigest(tag));
    }
  }

  /** imageTag undoes resolveComponentImage for an untagged repository exactly
      when the repository has no digest and the tag no '/', ':' or '@' (or the
      version is a lone "v", which leaves an empty tag). */
  lemma ImageTagUndoesResolve(imageField: string, version: string, defaultRepo: string)
    requires ':' !in TrimSpace(imageField)
    requires Trimmed(defaultRepo) && defaultRepo != "" && ':' !in defaultRepo
    ensures TagOf(ResolveComponentImage(imageField, version, defaultRepo)) == TagFor(version) <==>
      TagFor(version) == "" || ('@' !in Repository(imageField, defaultRepo) && PlainTag(TagFor(version)))
  {
    TrimSpaceTrims(imageField);
    TagIsTrimmed(version);
    TagOfComposed(Repository(imageField, defaultRepo), TagFor(version));
  }
}
