/** Optional values and call outcomes shared by the action builders and the
    branch operations. `None` stands for a nil pointer field of a Go options
    struct; `Failure` for a non-nil `error` returned by a GitLab call. */
module Common {

  datatype Option<+T> = None | Some(value: T)

  datatype Result<+T, +E> = Success(value: T) | Failure(error: E)

  /** An error reported by the GitLab client, passed through unchanged. */
  datatype Error = Error(message: string)
}
