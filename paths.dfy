/** Path arithmetic of the service: POSIX join and basename, and the per-request naming
    of artifacts in the scratch directory. */
module Paths {
  import opened Types

  const TEMP_DIR: string := "/tmp"

  predicate IsHexDigit(c: char) {
    '0' <= c <= '9' || 'a' <= c <= 'f'
  }

  /** A request id: the first eight characters of a random UUID's canonical text, which
      are lower-case hexadecimal digits. */
  predicate ValidId(s: string) {
    |s| == 8 && forall k :: 0 <= k < |s| ==> IsHexDigit(s[k])
  }

  type RequestId = s: string | ValidId(s) witness "00000000"

  /** POSIX `os.path.join` of two components: an absolute second component replaces the
      first, otherwise one separator is put between them unless the first already ends in one. */
  function Join(dir: string, name: string): string {
    if |name| > 0 && name[0] == '/' then name
    else if dir == [] || dir[|dir| - 1] == '/' then dir + name
    else dir + "/" + name
  }

  /** POSIX `os.path.basename`: everything after the last separator. */
  function Basename(p: string): (b: string)
    ensures |b| <= |p| && b == p[|p| - |b|..]
    ensures '/' !in b
    ensures |b| < |p| ==> p[|p| - |b| - 1] == '/'
    decreases |p|
  {
    if p == [] || p[|p| - 1] == '/' then [] else Basename(p[..|p| - 1]) + [p[|p| - 1]]
  }

  lemma BasenameSnoc(q: string, c: char)
    requires c != '/'
    ensures Basename(q + [c]) == Basename(q) + [c]
  {
    assert (q + [c])[..|q|] == q;
  }

  /** A separator followed by a separator-free name has that name as its basename. */
  lemma {:induction false} BasenameAfterSeparator(q: string, name: string)
    requires '/' !in name
    ensures Basename(q + "/" + name) == name
    decreases |name|
  {
    if name == [] {
      assert (q + "/" + name)[|q|] == '/';
    } else {
      var init, last := name[..|name| - 1], name[|name| - 1];
      assert last in name;
      assert forall c :: c in init ==> c in name;
      BasenameAfterSeparator(q, init);
      assert q + "/" + name == (q + "/" + init) + [last];
      BasenameSnoc(q + "/" + init, last);
      assert init + [last] == name;
    }
  }

  /** Joining a separator-free name onto a directory and taking the basename gives the name back. */
  lemma BasenameOfJoin(dir: string, name: string)
    requires |dir| > 0 && dir[|dir| - 1] != '/'
    requires '/' !in name
    ensures Join(dir, name) == dir + "/" + name
    ensures Basename(Join(dir, name)) == name
  {
    assert |name| > 0 ==> name[0] in name;
    BasenameAfterSeparator(dir, name);
  }

  /** The role of a per-request artifact; each has its own file-name prefix. */
  datatype Role = AudioInput | ImageInput | VideoOutput

  function RolePrefix(role: Role): string {
    match role
    case AudioInput => "audio_"
    case ImageInput => "image_"
    case VideoOutput => "video_"
  }

  /** The path of an artifact: directly under the scratch directory, its name made of the
      role's prefix, the request id and a role-specific tail. */
  function ArtifactPath(role: Role, id: RequestId, tail: string): (p: Path)
    ensures |p| == 19 + |tail|
    ensures p[..5] == TEMP_DIR + "/"
    ensures p[5..11] == RolePrefix(role)
    ensures p[11..19] == id
    ensures p[19..] == tail
  {
    Join(TEMP_DIR, RolePrefix(role) + id + tail)
  }

  /** Two artifacts that differ in role or in request id never share a path, whatever their
      tails: within a request the three roles are kept apart, and requests with distinct ids
      never collide in the shared directory. */
  lemma {:induction false} ArtifactPathsDistinct(role1: Role, id1: RequestId, tail1: string,
                                                 role2: Role, id2: RequestId, tail2: string)
    requires role1 != role2 || id1 != id2
    ensures ArtifactPath(role1, id1, tail1) != ArtifactPath(role2, id2, tail2)
  {
    var p1, p2 := ArtifactPath(role1, id1, tail1), ArtifactPath(role2, id2, tail2);
    if role1 != role2 {
      assert p1[5] == RolePrefix(role1)[0] != RolePrefix(role2)[0] == p2[5];
    } else {
      var k :| 0 <= k < 8 && id1[k] != id2[k];
      assert p1[11 + k] == id1[k] && p2[11 + k] == id2[k];
    }
  }
}
