# go-gitlab-wrapper: commit-action builders and branch clearing

This project models the two parts of the Go package `wrapper` that hold
behaviour of their own, apart from calls to the GitLab client:

- the commit-action builders of `actions.go` (module `Actions`): each one
  returns a commit action whose kind (create, update, delete, move, chmod)
  decides which optional fields are set; create and update carry base64
  content tagged with the encoding `"base64"` (`wrapper.go:11`), and a new
  directory is an empty `.gitkeep` file inside it;
- `ClearBranch` of `branch.go` (module `Branch`): it lists every node of a
  branch, returns the listing error unchanged if there is one, and otherwise
  fills a slice of the listing's length with one delete action per node, in
  order, and commits that slice on the same branch with the given message.

Module `Common` holds `Option` (a nil or set pointer field), `Result` and the
client's `Error`.

External collaborators become data:
- the base64 encoder (section 4 of RFC 4648) is the parameter `b64` of type
  `Actions.Encoder`, left uninterpreted; properties are stated in terms of it;
- the repository-tree listing (`ListRepo`, `wrapper.go:31-40`) is the function
  parameter `listTree(project, path, branch)` of `Branch.ClearBranch`;
- the final commit (`Commit`, `wrapper.go:64-76`) is the `CommitRequest`
  that `ClearBranch` returns: project, actions, branch, message and the
  wrapper's author e-mail and name. The commit's own result is not modelled.

The action invariant `Actions.FieldsFitKind` states the rule "the kind
determines which fields are set". `Actions.Interpret` reads an action back
into the caller's `Change` given a decoder, and is the partner of the
builders: building then reading back gives the change again, and every
well-formed action is what some builder produces.

## Model

| member | source | states |
|---|---|---|
| `Actions.CreateFileAction` | actions.go:14-23 | kind Create, file path is the argument unchanged, content is B64(content), encoding is "base64" (wrapper.go:11), no previous path or file mode; fields fit the kind |
| `Actions.DeleteFileAction` | actions.go:26-32 | kind Delete, file path is the argument unchanged, nothing else set |
| `Actions.MoveFileAction` | actions.go:36-43 | kind Move, file path is the first (destination) argument, previous path the second, no content, encoding or file mode |
| `Actions.UpdateFileAction` | actions.go:47-56 | kind Update, path unchanged, content B64(content), encoding "base64", no previous path or file mode |
| `Actions.ChmodFileAction` | actions.go:60-67 | kind Chmod, path unchanged, file mode is the flag, no content, encoding or previous path |
| `Actions.NewDirectoryAction` | actions.go:75-79 | equals CreateFileAction(path + "/.gitkeep", ""); its path has the argument as prefix and "/.gitkeep" as suffix; content is B64("") |
| `Actions.UpdateIsCreateWithKind` | actions.go:47-56 | an update action is the create action for the same arguments with only the kind changed |
| `Actions.NewDirectoryKeepsTrailingSlash` | actions.go:77 | the suffix is appended verbatim: "docs" gives "docs/.gitkeep", "docs/" gives "docs//.gitkeep", "" gives "/.gitkeep" |
| `Actions.Build` | actions.go:14-67 | whichever builder a change selects, the action fits its kind and keeps the change's path |
| `Actions.Interpret` | actions.go:14-67 | an action reads back exactly when its fields fit its kind, and the read-back keeps its path |
| `Actions.InterpretBuild` | actions.go:14-67 | reading back a built action yields the original change when the decoder inverts the encoder on its content |
| `Actions.BuildInterpret` | actions.go:14-67 | every well-formed action with canonically encoded content is the output of the builder for its read-back change |
| `Actions.InterpretNewDirectory` | actions.go:75-79 | a directory action reads back as creating an empty file at path + "/.gitkeep" |
| `Branch.DeleteActions` | branch.go:29-37 | the specification of the filled slice: as many entries as nodes |
| `Branch.DeleteActionsAt` | branch.go:31-37 | entry k is the delete action for node k's path, whatever the node's type |
| `Branch.DeleteActionsAppend` | branch.go:31-37 | the delete actions of a concatenated listing are the concatenation, so order is preserved |
| `Branch.DeleteActionsFilled` | branch.go:29-37 | every entry is set (no nil slot) and is a well-formed Delete action |
| `Branch.ClearBranch` | branch.go:21-40 | the listing is asked for path "" on the branch; a listing error is returned unchanged with no commit; otherwise one commit on the same branch with the given message and the wrapper's author, whose actions are the delete action of each listed node in order, as many as nodes, none nil; an empty listing still commits zero actions |

## Left out

- `CreateBranch` (branch.go:9-18): a single forwarding call to the GitLab client with no local logic.
- merge_requests.go: every function fills an options struct and forwards it to the GitLab client.
- wrapper.go apart from the "base64" tag: `Client` builds an HTTP client, and `ListRepo`, `NewFile` and `Commit` are network calls; `ListRepo` and `Commit` appear only as the listing parameter and the returned commit request of `ClearBranch`.
- The base64 encoding itself: it is a standard-library call, kept as an uninterpreted parameter.
- The window between listing and committing in `ClearBranch`: another writer can change the branch in between; this is concurrency with the remote service and has no place in a sequential model.
- Pointer identity: the builders return pointers to fresh structs holding copies of the arguments; they are modelled as immutable values.
- The commit action's `LastCommitID` field: no builder sets it.
- Authentication, HTTP responses and the GitLab error model.
- What the listing returns: the call passes no recursion or paging option, so which nodes come back (top level only, first page only) is decided by the GitLab client and service; the model takes the returned nodes as given.
