/** Business constants that the three JSON-LD producers spell out
    identically. Where the producers disagree (the parent organisation's
    address), each module keeps its own constant. */
module Site {
  const SiteUrl: string := "https://greenorbit.digital"
  const SiteName: string := "Green Orbit Digital"
  const LogoUrl: string := "https://greenorbit.digital/logos/organisations/greenorbit.png"
  const OrganizationId: string := "https://greenorbit.digital/#organization"
  const LogoId: string := "https://greenorbit.digital/#logo"
  const LocalBusinessId: string := "https://greenorbit.digital/#localbusiness"
  const SchemaContext: string := "https://schema.org"
  const Telephone: string := "+44 116 4830155"
  const Email: string := "hello@greenorbit.digital"
  const OpeningHours: string := "Mo-Fr 09:00-17:00"
  const PriceRange: string := "$$"
  const ParentOrganizationName: string := "Impact Orbit Creative Group"
  /** The agency description used by the LocalBusiness producer's default
      and by the global schema's call to it. */
  const AgencyDescription: string :=
    "Green Orbit Digital is a sustainable digital marketing agency delivering SEO, content systems, analytics, and strategy for the space and technology sectors. Part of Impact Orbit Creative Group."
}
