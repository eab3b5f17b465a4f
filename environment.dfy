/**
 * What the download session runs against and does not itself implement: the
 * standard-library path and URL functions (left uninterpreted), the HTTP client
 * (an oracle from request to response), and the operating system's file system
 * (a map from path to contents, with fixed sets of paths on which operations fail).
 */
module Environment {
  import opened Common

  /** A parsed URL; `text` is what URL.String() gives back. */
  datatype Url = Url(text: string)

  /** The standard-library functions the source calls, as uninterpreted functions. */
  datatype Platform = Platform(
    clean: string -> string,           // filepath.Clean
    join: (string, string) -> string,  // filepath.Join
    toSlash: string -> string,         // filepath.ToSlash
    fromSlash: string -> string,       // filepath.FromSlash
    trimSpace: string -> string,       // strings.TrimSpace
    parseUrl: string -> Result<Url>)   // url.Parse

  /** The values of a header that is present: net/http never stores a key with no values. */
  type HeaderValues = s: seq<string> | |s| > 0 witness [""]

  /**
   * What the client sees of an HTTP response: the status, Content-Length (-1 when
   * unknown), the Accept-Ranges values (None when the header is absent), and the body
   * stream, which yields `body` and then fails when `bodyFails` holds.
   */
  datatype Response = Response(
    statusCode: int,
    contentLength: int,
    acceptRanges: Option<HeaderValues>,
    body: seq<Byte>,
    bodyFails: bool)

  /** The session's context.Context: none yet, live, or cancelled through its cancel function. */
  datatype ContextState = NoContext | Live | Cancelled

  /** A GET request: the URL text and the value of the Range header, if any. */
  datatype Request = Request(url: string, range: Option<string>)

  /** http.NewRequestWithContext followed by http.DefaultClient.Do: a response or the error. */
  type Transport = Request -> Result<Response>

  /** Contents after writing `data` from offset 0 into a file opened without O_TRUNC or O_APPEND. */
  function WrittenFromStart(old_: seq<Byte>, data: seq<Byte>): (r: seq<Byte>)
    ensures |r| == if |old_| > |data| then |old_| else |data|
    ensures r[..|data|] == data
  {
    if |old_| > |data| then data + old_[|data|..] else data
  }

  /**
   * The file system. `files` maps every existing path to its contents. Creating,
   * opening, renaming or removing a path in `denied` fails; reading a file in
   * `unreadable` fails; os.Stat on a path in `statFails` reports an error other than
   * "does not exist", and so does os.Stat on every path inside a directory of
   * `unstatableDirs` (a "directory" that is a regular file gives ENOTDIR, one that
   * cannot be searched gives EACCES). A directory is a key of `files` like any
   * file; writing, copying or renaming onto one fails only when it is in `denied`.
   */
  class Disk {
    var files: map<string, seq<Byte>>
    const denied: set<string>
    const unreadable: set<string>
    const statFails: set<string>
    const unstatableDirs: set<string>

    constructor (files0: map<string, seq<Byte>>, denied0: set<string>, unreadable0: set<string>,
                 statFails0: set<string>, unstatableDirs0: set<string>)
      ensures files == files0 && denied == denied0 && unreadable == unreadable0
      ensures statFails == statFails0 && unstatableDirs == unstatableDirs0
    {
      files, denied, unreadable, statFails := files0, denied0, unreadable0, statFails0;
      unstatableDirs := unstatableDirs0;
    }

    /** `p` lies inside a directory where os.Stat of every path fails. */
    predicate InUnstatableDir(p: string)
    {
      InsideAny(unstatableDirs, p)
    }

    /** `!os.IsNotExist(err)` after os.Stat (util/file/file.go IsFileExist). */
    predicate IsFileExist(p: string)
      reads this
    {
      p in files || p in statFails || InUnstatableDir(p)
    }

    /** Every path IsFileExist reports as taken; infinite when a directory is unstatable. */
    ghost function Occupied(): iset<string>
      reads this
    {
      iset p | IsFileExist(p)
    }

    /** The paths reported as taken one by one: the files and the single stat faults. */
    function Listed(): (s: set<string>)
      reads this
      ensures forall p :: p in s <==> p in files || p in statFails
    {
      files.Keys + statFails
    }

    /** os.OpenFile with O_CREATE|O_WRONLY, and O_TRUNC when `truncate` (os.Create truncates). */
    method OpenForWrite(p: string, truncate: bool) returns (o: Outcome)
      modifies this
      ensures o.Pass? <==> p !in denied
      ensures files == if o.Fail? then old(files)
                       else if truncate || p !in old(files) then old(files)[p := []]
                       else old(files)
    {
      if p in denied {
        o := Fail("open " + p + ": permission denied");
      } else {
        if truncate || p !in files {
          files := files[p := []];
        }
        o := Pass;
      }
    }

    /** os.OpenFile without O_CREATE (read-only, or write-only with O_APPEND). */
    method OpenExisting(p: string) returns (o: Outcome)
      ensures o.Pass? <==> p in files && p !in denied
    {
      if p !in files {
        o := Fail("open " + p + ": no such file or directory");
      } else if p in denied {
        o := Fail("open " + p + ": permission denied");
      } else {
        o := Pass;
      }
    }

    /**
     * io.Copy from the open file `src` to the end of the open file `dst`. Bytes
     * written to a file whose path was removed after it was opened are not visible
     * under any path.
     */
    method Copy(dst: string, src: string) returns (o: Outcome)
      requires src in files
      modifies this
      ensures o.Pass? <==> src !in unreadable
      ensures files == if o.Pass? && dst in old(files) then old(files)[dst := old(files)[dst] + old(files)[src]] else old(files)
    {
      if src in unreadable {
        o := Fail("read " + src + ": input/output error");
      } else {
        if dst in files {
          files := files[dst := files[dst] + files[src]];
        }
        o := Pass;
      }
    }

    /** io.Copy from a response body into the open file `dst`, writing from offset 0. */
    method WriteBody(dst: string, body: Response) returns (o: Outcome)
      requires dst in files
      modifies this
      ensures o.Pass? <==> !body.bodyFails
      ensures files == old(files)[dst := WrittenFromStart(old(files)[dst], body.body)]
    {
      files := files[dst := WrittenFromStart(files[dst], body.body)];
      o := if body.bodyFails then Fail("unexpected EOF") else Pass;
    }

    /** os.Rename. */
    method Rename(from: string, to: string) returns (o: Outcome)
      modifies this
      ensures o.Pass? <==> from in old(files) && from !in denied && to !in denied
      ensures files == if o.Pass? then (old(files) - {from})[to := old(files)[from]] else old(files)
    {
      if from !in files {
        o := Fail("rename " + from + ": no such file or directory");
      } else if from in denied || to in denied {
        o := Fail("rename " + from + " " + to + ": permission denied");
      } else {
        files := (files - {from})[to := files[from]];
        o := Pass;
      }
    }

    /** os.Remove. */
    method Remove(p: string) returns (o: Outcome)
      modifies this
      ensures o.Pass? <==> p in old(files) && p !in denied
      ensures files == if o.Pass? then old(files) - {p} else old(files)
    {
      if p !in files {
        o := Fail("remove " + p + ": no such file or directory");
      } else if p in denied {
        o := Fail("remove " + p + ": permission denied");
      } else {
        files := files - {p};
        o := Pass;
      }
    }
  }
}
