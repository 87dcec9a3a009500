/**
 * The error values the traffic generator can produce. Each variant stands for
 * one `error` the Go program returns (or, for ArnTooShort, one index-out-of-range
 * panic), and carries the underlying cause reported by the service where the
 * program wraps or forwards it.
 */
module Errors {
  import opened Wrappers

  datatype Error =
    /** AWS_LOG_GROUP_ARN, AWS_KMS_ARN or STORAGE_ARN is empty at startup. */
    | ConfigurationMissing
    /** The key service's Encrypt call failed. */
    | EncryptFailed(cause: string)
    /** STORAGE_ARN starts with neither `arn:aws:s3` nor `arn:aws:dynamodb`. */
    | InvalidStorageArn
    /** The ARN has no colon-separated field at `index`; the Go program panics here. */
    | ArnTooShort(index: nat)
    /** GetObject failed with anything other than NoSuchKey. */
    | GetObjectFailed(cause: string)
    /** Reading the body of a fetched object failed. */
    | ReadBodyFailed(cause: string)
    /** PutObject failed. */
    | PutObjectFailed(cause: string)
    /** PutItem failed; the store's error is returned as it is. */
    | PutItemFailed(cause: string)
    /** CreateLogStream failed with anything other than already-exists. */
    | CreateLogStreamFailed(cause: string)
    /** PutLogEvents failed. */
    | PutLogEventsFailed(cause: string)

  /** The error an operation returns, and the state it leaves behind. */
  datatype Effect<S> = Effect(err: Option<Error>, state: S)
}
