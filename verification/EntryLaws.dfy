/** What the entries of a reply are, and the file names and job ids they carry. */
module EntryLaws {
  import opened Json
  import opened EncoderHistory

  predicate NoSlash(s: string) { forall i :: 0 <= i < |s| ==> s[i] != '/' }

  /** `name` is one path component that is neither empty nor a dot. */
  predicate IsComponent(name: string) { NoSlash(name) && name != "" && name != "." }

  lemma {:induction false} LastSlashBefore(d: string, name: string)
    requires NoSlash(name) && (d == "" || d[|d| - 1] == '/')
    ensures LastSlash(d + name) == |d|
    decreases |name|
  {
    if name == "" { assert d + name == d; }
    else {
      var n := |name| - 1;
      assert (d + name)[..|d + name| - 1] == d + name[..n];
      assert (d + name)[|d + name| - 1] == name[n];
      LastSlashBefore(d, name[..n]);
    }
  }

  /** The file name of a path is its last component. */
  lemma FileNameIsLast(d: string, name: string)
    requires IsComponent(name) && (d == "" || d[|d| - 1] == '/')
    ensures FileName(d + name) == name
  {
    LastSlashBefore(d, name);
    assert (d + name)[|d|..] == name;
  }

  /** Slashes and dots at the end of a path are ignored. */
  lemma FileNameSkipsDots(p: string)
    ensures FileName(p + "/") == FileName(p) && FileName(p + "/.") == FileName(p)
  {
    var a, b := p + "/", p + "/" + ".";
    LastSlashBefore(a, "");
    assert a + "" == a && a[|a|..] == "" && a[..|a| - 1] == p;
    LastSlashBefore(a, ".");
    assert b == a + "." && b[|a|..] == "." && b[..|a| - 1] == p;
    assert p + "/." == b;
  }

  /** A path without a component has no file name. */
  lemma NoComponentNoName()
    ensures FileName("") == "" && FileName(".") == ""
  {
    LastSlashBefore("", "");
    LastSlashBefore("", ".");
  }

  /** A file name is one component, or empty. */
  lemma {:induction false} FileNameIsComponent(p: string)
    ensures FileName(p) == "" || IsComponent(FileName(p))
    decreases |p|
  {
    var k := LastSlash(p);
    NothingAfterLastSlash(p);
    if !(p[k..] != "" && p[k..] != ".") && k > 0 { FileNameIsComponent(p[..k - 1]); }
  }

  lemma {:induction false} NothingAfterLastSlash(p: string)
    ensures NoSlash(p[LastSlash(p)..])
  {
    if p != "" && p[|p| - 1] != '/' {
      var n := |p| - 1;
      NothingAfterLastSlash(p[..n]);
      OneMoreCharacter(p, LastSlash(p[..n]));
      assert LastSlash(p) == LastSlash(p[..n]);
    } else {
      assert p[|p|..] == "";
    }
  }

  lemma OneMoreCharacter(p: string, k: nat)
    requires p != "" && k < |p| && p[|p| - 1] != '/' && NoSlash(p[..|p| - 1][k..])
    ensures NoSlash(p[k..])
  {
    assert p[k..] == p[..|p| - 1][k..] + [p[|p| - 1]];
  }

  // ---- the lists -----------------------------------------------------------------------

  /** The errors of a reply: the elements of a list, or one thing by itself, unless it is empty or missing. */
  lemma ErrorsAre(body: Json, e: Json)
    ensures e in ErrorsOf(body) <==>
      if Get(body, "errors").Arr? then e in Get(body, "errors").elements
      else Truthy(Get(body, "errors")) && e == Get(body, "errors")
  {
    if Get(body, "errors").Arr? && !Truthy(Get(body, "errors")) { assert Get(body, "errors").elements == []; }
  }

  /** The jobs of a reply: the listed ones, a single `job`, and only without one a bare `job_id`. */
  lemma JobsAre(body: Json, j: Json)
    ensures j in JobsOf(body) <==>
      || (Get(body, "jobs").Arr? && j in Get(body, "jobs").elements)
      || (Get(body, "job") != Null && j == Get(body, "job"))
      || (Get(body, "job") == Null && Get(body, "job_id") != Null && j == Obj(map["job_id" := Get(body, "job_id")]))
  {}

  /** The raw id of a job: the job itself if it is no object, else its `job_id` if it has that key, else its `id`. */
  predicate RawId(v: Json, raw: Json) {
    if !v.Obj? then raw == v
    else if "job_id" in v.fields then raw == v.fields["job_id"]
    else if "id" in v.fields then raw == v.fields["id"]
    else raw == Null
  }

  /** A job is identified exactly by a non-empty text or a whole number, of which at most 255 characters are kept. */
  lemma JobIdExactly(v: Json, id: string)
    ensures JobId(v) == Some(id) <==>
      exists raw :: RawId(v, raw) &&
        var text := if raw.Str? then raw.s else if raw.Num? then Decimal(raw.n) else "";
        (raw.Num? || (raw.Str? && raw.s != "")) && id == if |text| <= 255 then text else text[..255]
  {
    var raw := if v.Obj? then (if "job_id" in v.fields then v.fields["job_id"] else Get(v, "id")) else v;
    assert RawId(v, raw) && forall other :: RawId(v, other) ==> other == raw;
    hide RawId, Decimal;
  }
}
