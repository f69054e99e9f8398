/** uploadViaPOST of upload.go: a multipart POST replayed across 307/308 redirects. */
module PostUpload {
  import opened Prelude

  const MAX_REDIRECT_HOPS := 5
  const REDIRECT_PREFIX := "redirect-upgraded:"

  /** The caller's reader.  A broken one fails after its last byte instead of ending. */
  class Source {
    const data: Bytes
    const seekable: bool
    const broken: bool
    var pos: nat

    constructor (data: Bytes, seekable: bool, broken: bool)
      ensures this.data == data && this.seekable == seekable && this.broken == broken && pos == 0
    {
      this.data, this.seekable, this.broken, pos := data, seekable, broken, 0;
    }

    ghost function Unread(): Bytes
      reads this
    {
      if pos <= |data| then data[pos..] else []
    }

    method SeekStart()
      requires seekable
      modifies this
      ensures pos == 0
    {
      pos := 0;
    }

    /** io.Copy out of the reader: everything unread, then end or failure. */
    method Drain() returns (bytes: Bytes)
      modifies this
      ensures bytes == old(Unread()) && Unread() == []
    {
      bytes := if pos <= |data| then data[pos..] else [];
      pos := |data|;
    }
  }

  /** The server's side of one POST.  `read` is how much of the file part it reads before
      answering. */
  datatype Answer =
    | Accepted(read: nat)                  // 200 or 201
    | Redirect(read: nat, location: string)// 307 or 308; "" when there is no Location header
    | Rejected(status: int)                // any other status
    | NoAnswer                             // transport error

  datatype PostError = Upgraded(text: string) | PlainError

  datatype Result = Done(size: int) | SeekFailed | ReadFailed | PostFailed | WriteFailed | TooManyHops

  /** One POST as sent: its URL, and the file part it carries. */
  datatype Post = Post(url: string, part: Bytes)

  function TrimPrefix(s: string, prefix: string): string {
    if prefix <= s then s[|prefix|..] else s
  }

  lemma TrimUndoes(prefix: string, s: string)
    ensures TrimPrefix(prefix + s, prefix) == s
  {
    assert prefix <= prefix + s;
  }

  /** What surrounds one upload: edit(url) sets the archive and name parameters on a URL,
      resolve(base, location) is the absolute redirect target or None when it does not parse,
      seekOk(i) says whether the i-th rewind works, answers(i) is the server's i-th answer. */
  datatype Env = Env(start: string, edit: string -> string, resolve: (string, string) -> Option<string>,
                     seekOk: nat -> bool, answers: nat -> Answer)

  /** postUpload: a redirect becomes an error that carries the resolved URL in its text. */
  function Verdict(env: Env, url: string, a: Answer): Option<PostError> {
    match a
    case Accepted(_) => None
    case Redirect(_, location) =>
      if location == "" then Some(PlainError)
      else (
        match env.resolve(url, location)
        case None => Some(PlainError)
        case Some(resolved) => Some(Upgraded(REDIRECT_PREFIX + resolved)))
    case Rejected(_) => Some(PlainError)
    case NoAnswer => Some(PlainError)
  }

  /** A redirect that names a place to go to. */
  predicate Onward(env: Env, url: string, a: Answer) {
    a.Redirect? && a.location != "" && env.resolve(url, a.location).Some?
  }

  /** The redirect URL, resolved against the URL just posted to, survives its trip through the
      error text, whatever it looks like. */
  lemma RedirectSurvives(env: Env, url: string, a: Answer)
    ensures Onward(env, url, a) ==>
              var v := Verdict(env, url, a);
              v.Some? && v.value.Upgraded? && Some(TrimPrefix(v.value.text, REDIRECT_PREFIX)) == env.resolve(url, a.location)
    ensures !Onward(env, url, a) ==> Verdict(env, url, a) == if a.Accepted? then None else Some(PlainError)
  {
    if Onward(env, url, a) {
      TrimUndoes(REDIRECT_PREFIX, env.resolve(url, a.location).value);
    }
  }

  datatype Prepared = Ready(body: Bytes) | NoSeek | NoRead

  /** The start of one hop: rewind a seekable reader, or copy any other into the buffer the
      first time (an empty buffer is simply filled again, from a reader that has ended). */
  method Prepare(src: Source, buf: Bytes, canSeek: bool) returns (r: Prepared)
    modifies src
    ensures src.seekable ==> r == if canSeek then Ready(src.data) else NoSeek
    ensures !src.seekable && buf != [] ==> r == Ready(buf) && src.Unread() == old(src.Unread())
    ensures !src.seekable && buf == [] ==> src.Unread() == [] && r == if src.broken then NoRead else Ready(old(src.Unread()))
  {
    if src.seekable {
      if !canSeek {
        return NoSeek;
      }
      src.SeekStart();
      var whole := src.Drain();
      return Ready(whole);
    }
    if |buf| == 0 {
      var copied := src.Drain();
      if src.broken {
        return NoRead;
      }
      return Ready(copied);
    }
    r := Ready(buf);
  }

  /** Post i went to the start, or to where the answer to the post before it pointed. */
  ghost predicate Chained(env: Env, posts: seq<Post>, i: nat)
    requires i < |posts|
  {
    if i == 0 then posts[0].url == env.edit(env.start)
    else
      var a := env.answers(i - 1);
      && a.Redirect? && a.location != ""
      && var next := env.resolve(posts[i - 1].url, a.location);
         next.Some? && posts[i].url == env.edit(next.value)
  }

  /** There is somewhere to post to after these posts. */
  ghost predicate GoesOn(env: Env, posts: seq<Post>) {
    posts != [] ==> Onward(env, posts[|posts| - 1].url, env.answers(|posts| - 1))
  }

  lemma ChainGrows(env: Env, posts: seq<Post>, post: Post)
    requires forall i :: 0 <= i < |posts| ==> Chained(env, posts, i)
    requires Chained(env, posts + [post], |posts|)
    ensures forall i :: 0 <= i <= |posts| ==> Chained(env, posts + [post], i)
  {
    forall i | 0 <= i < |posts|
      ensures Chained(env, posts + [post], i)
    {
      assert Chained(env, posts, i);
    }
  }

  /**
   The redirect loop.  The part of a post is what the pipe offers; a server may answer before
   it has read all of it, and a POST is a success only if it did not.
   */
  method UploadViaPOST(src: Source, env: Env, size: int, unixFSSize: int) returns (r: Result, posts: seq<Post>)
    modifies src
    ensures |posts| <= 5 && forall i :: 0 <= i < |posts| ==> Chained(env, posts, i)
    ensures forall i :: 0 <= i < |posts| ==> posts[i].part == if src.seekable then src.data else old(src.Unread())
    // every redirect within the limit is followed, unless the reader fails first
    ensures r == TooManyHops <==> |posts| == 5 && GoesOn(env, posts)
    ensures GoesOn(env, posts) ==>
              || r == TooManyHops
              || (r == SeekFailed && src.seekable && !env.seekOk(|posts|))
              || (r == ReadFailed && !src.seekable && src.broken && posts == [])
    // success is a last POST answered 200/201 after the whole part of a sound reader was read
    ensures r.Done? <==> |posts| > 0 && env.answers(|posts| - 1).Accepted? && !src.broken
                         && env.answers(|posts| - 1).read >= |posts[|posts| - 1].part|
    ensures r == PostFailed <==> !GoesOn(env, posts) && !env.answers(|posts| - 1).Accepted?
    ensures r.Done? ==> r.size == if unixFSSize > 0 then unixFSSize else size
  {
    var endpoint := env.start;
    var buf: Bytes := [];
    ghost var part := if src.seekable then src.data else src.Unread();
    posts := [];
    for hop := 0 to MAX_REDIRECT_HOPS
      invariant |posts| == hop && GoesOn(env, posts) && forall i :: 0 <= i < hop ==> Chained(env, posts, i)
      invariant forall i :: 0 <= i < hop ==> posts[i].part == part
      invariant if hop == 0 then endpoint == env.start
                else Some(endpoint) == env.resolve(posts[hop - 1].url, env.answers(hop - 1).location)
      invariant !src.seekable ==> if hop == 0 then buf == [] && src.Unread() == part
                                  else !src.broken && buf == part && src.Unread() == []
    {
      var prepared := Prepare(src, buf, env.seekOk(hop));
      if prepared.NoSeek? {
        return SeekFailed, posts;
      }
      if prepared.NoRead? {
        return ReadFailed, posts;
      }
      var body := prepared.body;
      if !src.seekable {
        buf := body;
      }
      var url, answer := env.edit(endpoint), env.answers(hop);
      ChainGrows(env, posts, Post(url, body));
      posts := posts + [Post(url, body)];
      RedirectSurvives(env, url, answer);
      match Verdict(env, url, answer)
      case Some(Upgraded(text)) =>
        endpoint := TrimPrefix(text, REDIRECT_PREFIX);
      case Some(PlainError) =>
        return PostFailed, posts;
      case None =>
        if src.broken || answer.read < |body| {
          return WriteFailed, posts;
        }
        return Done(if unixFSSize > 0 then unixFSSize else size), posts;
    }
    r := TooManyHops;
  }
}
