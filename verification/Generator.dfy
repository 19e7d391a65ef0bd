/** The PDF generator, reduced to its outcome and the file it writes. */
module Generator {
  import opened Domain

  function Validate(title: string, content: string, items: seq<Item>): Option<GenError> {
    if title == "" then Some(TitleMissing)
    else if content == "" && items == [] then Some(NothingToPrint)
    else None
  }

  function PathOf(dir: string, job: JobId): string {
    dir + "/" + job + ".pdf"
  }

  /** `written` says whether the file system accepted the finished document. */
  function Generate(dir: string, job: JobId, payload: Payload, written: bool): Result<string, GenError> {
    match payload
    case Unparseable => Failure(BadPayload)
    case Document(title, content, items) =>
      match Validate(title, content, items)
      case Some(e) => Failure(e)
      case None => if written then Success(PathOf(dir, job)) else Failure(WriteFailed)
  }

  /** A document that the generator can print, given a disk that takes it. */
  predicate Printable(p: Payload) {
    p.Document? && p.title != "" && (p.content != "" || p.items != [])
  }

  /** The error that a payload brings about, read from the payload: there is exactly one. */
  predicate Explains(p: Payload, e: GenError) {
    match e
    case BadPayload => p.Unparseable?
    case TitleMissing => p.Document? && p.title == ""
    case NothingToPrint => p.Document? && p.title != "" && p.content == "" && p.items == []
    case WriteFailed => Printable(p)
  }

  /** When the generator succeeds, with which path, and which error means what. */
  lemma GenerateMeans(dir: string, job: JobId, p: Payload, written: bool)
    ensures var r := Generate(dir, job, p, written);
            && (r.Success? <==> Printable(p) && written)
            && (r.Success? ==> r.value == PathOf(dir, job))
            && (r == Failure(BadPayload) <==> p.Unparseable?)
            && (r == Failure(TitleMissing) <==> p.Document? && p.title == "")
            && (r == Failure(NothingToPrint) <==> p.Document? && p.title != "" && p.content == "" && p.items == [])
            && (r == Failure(WriteFailed) <==> Printable(p) && !written)
  {
  }

  /** A file lies in the output directory and is named after its job, so two jobs never write the same file. */
  lemma PathInjective(dir: string, a: JobId, b: JobId)
    ensures var path := PathOf(dir, a);
            |path| == |dir| + |a| + 5 && dir <= path && path[|dir|] == '/' && path[|dir| + 1..] == a + ".pdf"
    ensures PathOf(dir, a) == PathOf(dir, b) ==> a == b
  {
    var pa, pb := PathOf(dir, a), PathOf(dir, b);
    if pa == pb {
      assert pa[|dir| + 1..|pa| - 4] == a;
      assert pb[|dir| + 1..|pb| - 4] == b;
    }
  }
}
