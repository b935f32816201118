/** Commit-action builders (actions.go) and the "base64" encoding tag
    (wrapper.go:11). Each builder returns one file-level change for a commit;
    the action kind decides which optional fields are set. */
module Actions {
  import opened Common

  /** The five kinds of file action a commit can carry. */
  datatype FileAction = Create | Delete | Move | Update | Chmod

  /** One commit action. `action` and `filePath` are set by every builder;
      the other fields are optional pointers in the Go options struct. */
  datatype CommitAction = CommitAction(
    action: FileAction,
    filePath: string,
    previousPath: Option<string>,
    content: Option<string>,
    encoding: Option<string>,
    executeFilemode: Option<bool>)

  /** The encoding tag sent with base64 content (wrapper.go:11). */
  const Base64Encoding: string := "base64"

  /** The suffix that turns a directory path into a placeholder file path. */
  const GitKeep: string := "/.gitkeep"

  /** The standard base64 encoder of section 4 of RFC 4648, applied to the
      UTF-8 bytes of a string. It is left uninterpreted: every builder that
      encodes content takes it as a parameter. */
  type Encoder = string -> string

  /** The invariant of a well-formed action: content and encoding come
      together, only for Create and Update, and the encoding is "base64";
      a previous path only for Move; an executable flag only for Chmod. */
  predicate FieldsFitKind(a: CommitAction)
  {
    && (a.content.Some? <==> a.encoding.Some?)
    && (a.content.Some? <==> (a.action.Create? || a.action.Update?))
    && (a.encoding.Some? ==> a.encoding.value == Base64Encoding)
    && (a.previousPath.Some? <==> a.action.Move?)
    && (a.executeFilemode.Some? <==> a.action.Chmod?)
  }

  /** Create a new file at `path` holding the base64 encoding of `content`. */
  function CreateFileAction(b64: Encoder, path: string, content: string): (r: CommitAction)
    ensures r.action == Create && r.filePath == path
    ensures r.content == Some(b64(content)) && r.encoding == Some(Base64Encoding)
    ensures r.previousPath == None && r.executeFilemode == None
    ensures FieldsFitKind(r)
  {
    var encoded := b64(content);
    CommitAction(Create, path, None, Some(encoded), Some(Base64Encoding), None)
  }

  /** Delete the file at `path`; nothing but the kind and the path is set. */
  function DeleteFileAction(path: string): (r: CommitAction)
    ensures r.action == Delete && r.filePath == path
    ensures r.previousPath == None && r.content == None
    ensures r.encoding == None && r.executeFilemode == None
    ensures FieldsFitKind(r)
  {
    CommitAction(Delete, path, None, None, None, None)
  }

  /** Move the file at `previousPath` to `path` (the destination comes first). */
  function MoveFileAction(path: string, previousPath: string): (r: CommitAction)
    ensures r.action == Move && r.filePath == path
    ensures r.previousPath == Some(previousPath)
    ensures r.content == None && r.encoding == None && r.executeFilemode == None
    ensures FieldsFitKind(r)
  {
    CommitAction(Move, path, Some(previousPath), None, None, None)
  }

  /** Replace the file at `path` with the base64 encoding of `content`. */
  function UpdateFileAction(b64: Encoder, path: string, content: string): (r: CommitAction)
    ensures r.action == Update && r.filePath == path
    ensures r.content == Some(b64(content)) && r.encoding == Some(Base64Encoding)
    ensures r.previousPath == None && r.executeFilemode == None
    ensures FieldsFitKind(r)
  {
    var encoded := b64(content);
    CommitAction(Update, path, None, Some(encoded), Some(Base64Encoding), None)
  }

  /** Set the executable bit of the file at `path` to `executeFilemode`. */
  function ChmodFileAction(path: string, executeFilemode: bool): (r: CommitAction)
    ensures r.action == Chmod && r.filePath == path
    ensures r.executeFilemode == Some(executeFilemode)
    ensures r.previousPath == None && r.content == None && r.encoding == None
    ensures FieldsFitKind(r)
  {
    CommitAction(Chmod, path, None, None, None, Some(executeFilemode))
  }

  /** Create a directory by creating an empty `.gitkeep` file inside it.
      The path is extended as given: no separator is trimmed or added. */
  function NewDirectoryAction(b64: Encoder, path: string): (r: CommitAction)
    ensures r == CreateFileAction(b64, path + GitKeep, "")
    ensures r.action == Create && r.content == Some(b64(""))
    ensures |r.filePath| == |path| + 9
    ensures r.filePath[..|path|] == path && r.filePath[|path|..] == "/.gitkeep"
    ensures FieldsFitKind(r)
  {
    var dir := path + GitKeep;
    CreateFileAction(b64, dir, "")
  }

  /** Update differs from Create in the kind alone. */
  lemma UpdateIsCreateWithKind(b64: Encoder, path: string, content: string)
    ensures UpdateFileAction(b64, path, content)
         == CreateFileAction(b64, path, content).(action := Update)
    ensures UpdateFileAction(b64, path, content) != CreateFileAction(b64, path, content)
  {
  }

  /** A directory path that already ends in "/" gets a doubled separator. */
  lemma NewDirectoryKeepsTrailingSlash(b64: Encoder)
    ensures NewDirectoryAction(b64, "docs").filePath == "docs/.gitkeep"
    ensures NewDirectoryAction(b64, "docs/").filePath == "docs//.gitkeep"
    ensures NewDirectoryAction(b64, "").filePath == "/.gitkeep"
  {
  }

  /** The file-level change a caller asks for, with content in plain text. */
  datatype Change =
    | CreateFile(path: string, content: string)
    | UpdateFile(path: string, content: string)
    | DeleteFile(path: string)
    | MoveFile(path: string, previousPath: string)
    | ChmodFile(path: string, executable: bool)

  /** The builder a change calls for. */
  function Build(b64: Encoder, c: Change): (r: CommitAction)
    ensures FieldsFitKind(r)
    ensures r.filePath == c.path
  {
    match c
    case CreateFile(p, s) => CreateFileAction(b64, p, s)
    case UpdateFile(p, s) => UpdateFileAction(b64, p, s)
    case DeleteFile(p) => DeleteFileAction(p)
    case MoveFile(p, q) => MoveFileAction(p, q)
    case ChmodFile(p, x) => ChmodFileAction(p, x)
  }

  /** How a receiver reads an action back, given a base64 decoder:
      None when the fields do not fit the kind. */
  function Interpret(decode: Encoder, a: CommitAction): (r: Option<Change>)
    ensures r.Some? <==> FieldsFitKind(a)
    ensures r.Some? ==> r.value.path == a.filePath
  {
    if !FieldsFitKind(a) then None
    else match a.action
      case Create => Some(CreateFile(a.filePath, decode(a.content.value)))
      case Update => Some(UpdateFile(a.filePath, decode(a.content.value)))
      case Delete => Some(DeleteFile(a.filePath))
      case Move => Some(MoveFile(a.filePath, a.previousPath.value))
      case Chmod => Some(ChmodFile(a.filePath, a.executeFilemode.value))
  }

  /** The content a change carries, if any. */
  function ContentOf(c: Change): Option<string>
  {
    match c
    case CreateFile(_, s) => Some(s)
    case UpdateFile(_, s) => Some(s)
    case _ => None
  }

  /** Reading back a built action yields the change it was built from,
      provided the decoder undoes the encoder on that change's content. */
  lemma InterpretBuild(b64: Encoder, decode: Encoder, c: Change)
    requires ContentOf(c).Some? ==> decode(b64(ContentOf(c).value)) == ContentOf(c).value
    ensures Interpret(decode, Build(b64, c)) == Some(c)
  {
  }

  /** Conversely every well-formed action is what some builder produces,
      provided its content is a canonical encoding. */
  lemma BuildInterpret(b64: Encoder, decode: Encoder, a: CommitAction)
    requires FieldsFitKind(a)
    requires a.content.Some? ==> b64(decode(a.content.value)) == a.content.value
    ensures Interpret(decode, a).Some?
    ensures Build(b64, Interpret(decode, a).value) == a
  {
  }

  /** A directory action reads back as an empty file under the directory. */
  lemma InterpretNewDirectory(b64: Encoder, decode: Encoder, path: string)
    requires decode(b64("")) == ""
    ensures Interpret(decode, NewDirectoryAction(b64, path)) == Some(CreateFile(path + "/.gitkeep", ""))
  {
  }
}
