/** `Sftp.rename`, which replaces an existing target by unlinking it and trying
    again, against a server that follows section 6.5 of draft-ietf-secsh-filexfer-02
    but may also fail any request for reasons of its own. */
module Rename {
  import opened Streams

  type Path = string
  type Files = map<Path, Bytes>
  type Status = nat

  // SSH_FX_* status codes
  const FX_OK: Status := 0
  const FX_NO_SUCH_FILE: Status := 2
  const FX_FAILURE: Status := 4

  // errno values of Linux
  const EPERM := 1
  const ENOENT := 2
  const EIO := 5
  const ENOMEM := 12
  const EACCES := 13
  const EEXIST := 17
  const ENODEV := 19
  const ENOTDIR := 20
  const EINVAL := 22
  const EDEADLOCK := 35
  const ENOTEMPTY := 39
  const ELOOP := 40
  const EBADMSG := 74
  const ECONNABORTED := 103
  const EDQUOT := 122

  datatype Error = IOError(errno: int) | LibraryError

  /** libssh2_sftp_errno_to_exception */
  function ErrorOf(err: Status): Error {
    match err
    case 2 => IOError(ENOENT)
    case 3 => IOError(EPERM)
    case 4 => IOError(EIO)
    case 5 => IOError(EBADMSG)
    case 6 => IOError(EIO)
    case 7 => IOError(ECONNABORTED)
    case 8 => IOError(EPERM)
    case 9 => IOError(EIO)
    case 10 => IOError(ENOENT)
    case 11 => IOError(EEXIST)
    case 12 => IOError(EACCES)
    case 13 => IOError(ENODEV)
    case 14 => IOError(ENOMEM)
    case 15 => IOError(EDQUOT)
    case 16 => IOError(EIO)
    case 17 => IOError(EDEADLOCK)
    case 18 => IOError(ENOTEMPTY)
    case 19 => IOError(ENOTDIR)
    case 20 => IOError(EINVAL)
    case 21 => IOError(ELOOP)
    case _ => LibraryError
  }

  /** The errno that `rename` takes for "the target exists" is shared by four codes. */
  lemma RetriedCodes(err: Status)
    ensures ErrorOf(err) == IOError(EIO) <==> err in {4, 6, 9, 16}
  {
  }

  datatype Request = Move(src: Path, dst: Path) | Unlink(path: Path)

  /** What else can happen to a request: the server refuses it with some status, or
      the answer gets lost, whether or not the server had acted. */
  datatype Trouble = Nothing | Refused(status: Status) | Lost(acted: bool)

  datatype Reply = Ok | Fails(error: Error)
  datatype Answer = Answer(reply: Reply, files: Files)

  /** The server's own verdict. Moving onto an existing path is a failure. */
  function Verdict(files: Files, r: Request): Status {
    match r
    case Move(src, dst) => if src !in files then FX_NO_SUCH_FILE else if dst in files then FX_FAILURE else FX_OK
    case Unlink(path) => if path !in files then FX_NO_SUCH_FILE else FX_OK
  }

  function Effect(files: Files, r: Request): Files
    requires Verdict(files, r) == FX_OK
  {
    match r
    case Move(src, dst) => Moved(files, src, dst)
    case Unlink(path) => files - {path}
  }

  function Moved(files: Files, src: Path, dst: Path): Files
    requires src in files
  {
    (files - {src})[dst := files[src]]
  }

  predicate Acts(files: Files, r: Request, t: Trouble) {
    Verdict(files, r) == FX_OK && t in {Nothing, Lost(true)}
  }

  /** One request as the C wrapper reports it. */
  function Ask(files: Files, r: Request, t: Trouble): Answer {
    var after := if Acts(files, r, t) then Effect(files, r) else files;
    match t
    case Nothing => Answer(if Verdict(files, r) == FX_OK then Ok else Fails(ErrorOf(Verdict(files, r))), after)
    case Refused(status) => Answer(Fails(ErrorOf(status)), after)
    case Lost(_) => Answer(Fails(LibraryError), after)
  }

  /** `rename`, when its three requests meet `t1`, `t2` and `t3`. */
  function Renaming(files: Files, src: Path, dst: Path, t1: Trouble, t2: Trouble, t3: Trouble): Answer {
    var first := Ask(files, Move(src, dst), t1);
    if first.reply != Fails(IOError(EIO)) then first
    else
      var second := Ask(first.files, Unlink(dst), t2);
      if second.reply != Ok then second else Ask(second.files, Move(src, dst), t3)
  }

  /** The retry is taken exactly when the target exists or the server says so. */
  lemma RetryIff(files: Files, src: Path, dst: Path, t: Trouble)
    ensures Ask(files, Move(src, dst), t).reply == Fails(IOError(EIO)) <==>
        ((t == Nothing && src in files && dst in files) || (t.Refused? && t.status in {4, 6, 9, 16}))
  {
    if t.Refused? {
      RetriedCodes(t.status);
    }
  }

  /** The retry, in those terms. */
  predicate Retries(files: Files, src: Path, dst: Path, t: Trouble) {
    (t == Nothing && src in files && dst in files) || (t.Refused? && t.status in {4, 6, 9, 16})
  }

  /** What is reported for one request that the server, left alone, answers with `status`. */
  function Report(status: Status, t: Trouble): Reply {
    match t
    case Nothing => if status == FX_OK then Ok else Fails(ErrorOf(status))
    case Refused(s) => Fails(ErrorOf(s))
    case Lost(_) => Fails(LibraryError)
  }

  /** Which reply the caller sees, for any two paths and any troubles: that of the first
      move unless there is a retry; that of the unlink if it did not work; that of the
      second move, which finds the target free. */
  lemma ReplyExact(files: Files, src: Path, dst: Path, t1: Trouble, t2: Trouble, t3: Trouble)
    ensures var reply := Renaming(files, src, dst, t1, t2, t3).reply;
      reply ==
        if !Retries(files, src, dst, t1) then
          Report(if src !in files then FX_NO_SUCH_FILE else if dst in files then FX_FAILURE else FX_OK, t1)
        else if t2 != Nothing || dst !in files then
          Report(if dst in files then FX_OK else FX_NO_SUCH_FILE, t2)
        else
          Report(if src in files && src != dst then FX_OK else FX_NO_SUCH_FILE, t3)
  {
    RetryIff(files, src, dst, t1);
  }

  /** Which files there are then: moved at once; or the target is unlinked and perhaps
      replaced; or nothing has happened. A lost answer does not tell. */
  lemma FilesExact(files: Files, src: Path, dst: Path, t1: Trouble, t2: Trouble, t3: Trouble)
    ensures var after := Renaming(files, src, dst, t1, t2, t3).files;
      after ==
        if !Retries(files, src, dst, t1) then
          if src in files && dst !in files && t1 in {Nothing, Lost(true)} then (files - {src})[dst := files[src]]
          else files
        else if dst !in files || t2 !in {Nothing, Lost(true)} then files
        else if t2 == Nothing && src in files && src != dst && t3 in {Nothing, Lost(true)} then
          (files - {src})[dst := files[src]]
        else files - {dst}
  {
    RetryIff(files, src, dst, t1);
    if src in files {
      assert src != dst ==> ((files - {dst}) - {src})[dst := files[src]] == (files - {src})[dst := files[src]];
    }
  }

  /** Left alone, `rename` replaces: the content moves, the rest stays. */
  lemma Replaces(files: Files, src: Path, dst: Path)
    requires src != dst
    ensures Renaming(files, src, dst, Nothing, Nothing, Nothing) ==
      if src in files then Answer(Ok, Moved(files, src, dst)) else Answer(Fails(IOError(ENOENT)), files)
  {
    if src in files && dst in files {
      assert (files - {dst}) - {src} == files - {src} - {dst};
      assert ((files - {dst}) - {src})[dst := files[src]] == (files - {src})[dst := files[src]];
    }
  }

  /** Whatever happens to the requests, distinct paths keep the source's content in one
      of two places, and only three outcomes are possible. Success means the first. */
  lemma NothingLost(files: Files, src: Path, dst: Path, t1: Trouble, t2: Trouble, t3: Trouble)
    requires src != dst && src in files
    ensures var a := Renaming(files, src, dst, t1, t2, t3);
      && a.files in {Moved(files, src, dst), files - {dst}, files}
      && (a.reply == Ok ==> a.files == Moved(files, src, dst))
      && ((src in a.files && a.files[src] == files[src]) || (dst in a.files && a.files[dst] == files[src]))
      && a.files - {src, dst} == files - {src, dst}
  {
    assert (files - {dst}) - {src} == files - {src} - {dst};
    assert Moved(files - {dst}, src, dst) == Moved(files, src, dst);
    assert Moved(files, src, dst) - {src, dst} == files - {src, dst};
  }

  /** The old target is gone without a replacement exactly when the retry unlinked it
      and its second move did not happen. */
  lemma TargetLostIff(files: Files, src: Path, dst: Path, t1: Trouble, t2: Trouble, t3: Trouble)
    requires src != dst && src in files && dst in files
    ensures dst !in Renaming(files, src, dst, t1, t2, t3).files <==>
      (Ask(files, Move(src, dst), t1).reply == Fails(IOError(EIO)) &&
       (t2 == Lost(true) || (t2 == Nothing && t3 !in {Nothing, Lost(true)})))
  {
    if Ask(files, Move(src, dst), t1).reply == Fails(IOError(EIO)) {
      assert Acts(files - {dst}, Move(src, dst), t3) <==> t3 in {Nothing, Lost(true)};
    }
  }

  /** With one path in both places the content survives exactly if the unlink of the
      retry does not happen; left alone, `rename(p, p)` deletes the file. */
  lemma SamePath(files: Files, p: Path, t1: Trouble, t2: Trouble, t3: Trouble)
    requires p in files
    ensures var a := Renaming(files, p, p, t1, t2, t3);
      && a.reply != Ok
      && a.files == if (t1 == Nothing || (t1.Refused? && t1.status in {4, 6, 9, 16})) && t2 in {Nothing, Lost(true)}
                    then files - {p} else files
  {
    RetryIff(files, p, p, t1);
  }

  /** The sftp wrapper and the server behind it. `troubles` lists what the coming
      requests meet; nothing once it is used up. */
  class Sftp {
    var files: Files
    var troubles: seq<Trouble>

    constructor (f: Files, ts: seq<Trouble>)
      ensures files == f && troubles == ts
    {
      files, troubles := f, ts;
    }

    method Send(r: Request) returns (reply: Reply)
      modifies this
      ensures Answer(reply, files) == Ask(old(files), r, At(old(troubles), 0)) && troubles == Rest(old(troubles))
    {
      var a := Ask(files, r, At(troubles, 0));
      files, troubles := a.files, Rest(troubles);
      return a.reply;
    }

    method Rename(src: Path, dst: Path) returns (reply: Reply)
      modifies this
      ensures var ts := old(troubles);
        Answer(reply, files) == Renaming(old(files), src, dst, At(ts, 0), At(ts, 1), At(ts, 2))
      ensures |troubles| >= |old(troubles)| - 3
    {
      reply := Send(Move(src, dst));
      if reply.Fails? && reply.error.IOError? {
        if reply.error.errno == EIO {
          reply := Send(Unlink(dst));
          if reply.Ok? {
            reply := Send(Move(src, dst));
          }
        }
      }
    }
  }

  function At(ts: seq<Trouble>, i: nat): Trouble {
    if i < |ts| then ts[i] else Nothing
  }

  function Rest(ts: seq<Trouble>): seq<Trouble> {
    if ts == [] then [] else ts[1..]
  }
}
