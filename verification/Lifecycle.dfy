/** The phases of a download (`DownloadLifecycle` in `state.rs`). */
module Lifecycles {

  datatype Lifecycle =
    | Created | Starting | Allocating | Running | Pausing | Paused | Verifying
    | Cancelling | Cancelled | Completed | Failed
  {
    function RequestStart(): Lifecycle {
      match this
      case Created | Paused | Cancelled | Completed | Failed => Starting
      case _ => this
    }

    function MarkAllocating(): Lifecycle {
      match this
      case Starting | Running => Allocating
      case _ => this
    }

    function MarkRunning(): Lifecycle {
      match this
      case Starting | Allocating | Paused => Running
      case _ => this
    }

    function MarkVerifying(): Lifecycle {
      match this
      case Running => Verifying
      case _ => this
    }

    function RequestPause(): Lifecycle {
      match this
      case Starting | Allocating | Running | Pausing => Pausing
      case _ => this
    }

    function MarkPaused(): Lifecycle {
      match this
      case Starting | Allocating | Running | Pausing => Paused
      case _ => this
    }

    function RequestCancel(): Lifecycle {
      match this
      case Created => Cancelled
      case Starting | Allocating | Running | Pausing | Paused => Cancelling
      case _ => this
    }

    function MarkCancelled(): Lifecycle {
      match this
      case Created | Starting | Allocating | Running | Pausing | Paused | Cancelling => Cancelled
      case _ => this
    }

    function MarkCompleted(): Lifecycle {
      match this
      case Running | Verifying => Completed
      case _ => this
    }

    function MarkFailed(): Lifecycle {
      Failed
    }
  }
}
