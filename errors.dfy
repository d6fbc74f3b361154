/** Every error the provider can report, from the backing store up to the factory. */
module Errors {

  datatype Error =
    // Raised by the backing store.
    | NotFound                              // no object under the requested key
    | AlreadyExists                         // create of a key that is taken
    | Transport(reason: string)             // any other store failure, opaque
    // Raised by the provider itself.
    | InstanceNotFound                      // the host framework's "instance not found" signal
    | InvalidProviderID(providerID: string) // provider ID outside the dvp://<token> grammar
    | PollTimeout                           // no ingress appeared within the poll budget
    | ConfigInvalid                         // configuration rejected by Validate
    | ConfigRead(reason: string)            // the configuration reader failed
    | ConfigDecode(reason: string)          // the configuration text is not valid YAML
    | CloudConfigFailed(cause: Error)       // "failed to get cloudConfig", wrapping the cause
    | KubeconfigLoad(reason: string)        // "failed to load kubeconfig"

  /** The errors the backing store itself can return. */
  predicate IsStoreError(e: Error) {
    e.NotFound? || e.AlreadyExists? || e.Transport?
  }
}
