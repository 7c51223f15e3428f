/** The annotation names the deployment looks for (the DotNames constants, plus Model). */
module DotNames {
  import opened Jandex

  const QUALIFIER: Name := "javax.inject.Qualifier"
  const INTERCEPTOR_BINDING: Name := "javax.interceptor.InterceptorBinding"
  const STEREOTYPE: Name := "javax.enterprise.inject.Stereotype"
  const ALTERNATIVE: Name := "javax.enterprise.inject.Alternative"
  const INTERCEPTOR: Name := "javax.interceptor.Interceptor"
  const PRODUCES: Name := "javax.enterprise.inject.Produces"
  const DISPOSES: Name := "javax.enterprise.inject.Disposes"
  const OBSERVES: Name := "javax.enterprise.event.Observes"
  /** The convenience stereotype that always closes the bean-defining list. */
  const MODEL: Name := "javax.enterprise.inject.Model"
}
