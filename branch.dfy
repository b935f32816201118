/** Branch clearing (branch.go:20-40): list every node of a branch, build one
    delete action per node into a slice of the listing's length, and submit
    the slice as a single commit on that branch. The GitLab listing call is a
    parameter and the commit call is the request the method returns. */
module Branch {
  import opened Common
  import opened Actions

  /** A project is named by its numeric ID or by its path. */
  datatype Project = ProjectId(id: int) | ProjectPath(path: string)

  /** The wrapper handle: the project it works on and the author identity
      stamped on every commit it makes. */
  datatype Wrapper = Wrapper(project: Project, email: string, name: string)

  /** A repository tree entry as the listing reports it; `nodeType` is
      "blob" for a file and "tree" for a directory. */
  datatype TreeNode = TreeNode(id: string, name: string, nodeType: string, path: string, mode: string)

  /** The repository-tree listing call: project, path inside the repository,
      branch; it yields the nodes or the client's error. */
  type ListTree = (Project, string, string) -> Result<seq<TreeNode>, Error>

  /** The options of one commit: the actions in order (None is a nil slot),
      the branch, the message and the wrapper's author identity. */
  datatype CommitRequest = CommitRequest(
    project: Project,
    actions: seq<Option<CommitAction>>,
    branch: string,
    commitMessage: string,
    authorEmail: string,
    authorName: string)

  /** What ClearBranch does: give back the listing error, or issue a commit. */
  datatype ClearOutcome = ListFailed(error: Error) | Committed(request: CommitRequest)

  /** One delete action per node, in the order of the listing. */
  function DeleteActions(nodes: seq<TreeNode>): (r: seq<Option<CommitAction>>)
    ensures |r| == |nodes|
  {
    if nodes == [] then [] else [Some(DeleteFileAction(nodes[0].path))] + DeleteActions(nodes[1..])
  }

  /** Slot k holds the delete action for node k, whatever the node's type. */
  lemma {:induction false} DeleteActionsAt(nodes: seq<TreeNode>, k: nat)
    requires k < |nodes|
    ensures DeleteActions(nodes)[k] == Some(DeleteFileAction(nodes[k].path))
  {
    if k > 0 {
      DeleteActionsAt(nodes[1..], k - 1);
    }
  }

  /** Deleting a concatenated listing is the concatenation of the deletes. */
  lemma {:induction false} DeleteActionsAppend(a: seq<TreeNode>, b: seq<TreeNode>)
    ensures DeleteActions(a + b) == DeleteActions(a) + DeleteActions(b)
  {
    if a != [] {
      assert (a + b)[0] == a[0] && (a + b)[1..] == a[1..] + b;
      DeleteActionsAppend(a[1..], b);
      calc {
        DeleteActions(a + b);
        [Some(DeleteFileAction(a[0].path))] + DeleteActions(a[1..] + b);
        [Some(DeleteFileAction(a[0].path))] + (DeleteActions(a[1..]) + DeleteActions(b));
        ([Some(DeleteFileAction(a[0].path))] + DeleteActions(a[1..])) + DeleteActions(b);
      }
    } else {
      assert a + b == b;
    }
  }

  /** Every slot is filled with a well-formed Delete action. */
  lemma {:induction false} DeleteActionsFilled(nodes: seq<TreeNode>)
    ensures forall a :: a in DeleteActions(nodes) ==>
              a.Some? && a.value.action == Delete && FieldsFitKind(a.value)
  {
    if nodes != [] {
      DeleteActionsFilled(nodes[1..]);
    }
  }

  /** Clear `branch` with a single commit carrying `commitMessage`. */
  method ClearBranch(w: Wrapper, listTree: ListTree, branch: string, commitMessage: string)
    returns (out: ClearOutcome)
    ensures listTree(w.project, "", branch).Failure? ==>
              out == ListFailed(listTree(w.project, "", branch).error)
    ensures listTree(w.project, "", branch).Success? ==>
              out == Committed(CommitRequest(w.project, DeleteActions(listTree(w.project, "", branch).value),
                                             branch, commitMessage, w.email, w.name))
    ensures listTree(w.project, "", branch).Success? ==>
              var nodes := listTree(w.project, "", branch).value;
              && |out.request.actions| == |nodes|
              && forall k :: 0 <= k < |nodes| ==>
                   out.request.actions[k] == Some(DeleteFileAction(nodes[k].path))
    ensures out.Committed? ==> None !in out.request.actions
    ensures listTree(w.project, "", branch) == Success([]) ==>
              out.Committed? && out.request.actions == []
  {
    var listing := listTree(w.project, "", branch);
    if listing.Failure? {
      return ListFailed(listing.error);
    }
    var nodes := listing.value;

    var commitActions := new Option<CommitAction>[|nodes|](_ => None);
    for i := 0 to |nodes|
      invariant forall k :: 0 <= k < i ==> commitActions[k] == Some(DeleteFileAction(nodes[k].path))
      invariant forall k :: i <= k < |nodes| ==> commitActions[k] == None
    {
      var node := nodes[i];
      commitActions[i] := Some(DeleteFileAction(node.path));
    }

    forall k | 0 <= k < |nodes|
      ensures commitActions[..][k] == DeleteActions(nodes)[k]
    {
      DeleteActionsAt(nodes, k);
    }
    out := Committed(CommitRequest(w.project, commitActions[..], branch, commitMessage, w.email, w.name));
  }
}
