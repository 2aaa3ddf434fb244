/**
 * The template catalog of `src/data/templates.ts` as data, its two derived
 * views (`getTemplateBySlug`, `allCategories`) and the structural facts the
 * detail pages rely on: slugs are distinct, each template's id is its slug and
 * every template has at least one section.
 */
module Catalog {

  import opened Wrappers
  import opened Templates

  /** `basePersonalSection` (src/data/templates.ts:42). */
  const BasePersonalSection: TemplateSection := TemplateSection("personal", "Personal Details", Some("Basic personal information for your biodata."), [
      TemplateField("fullName", "Full Name", "Rahul Sharma"),
      TemplateField("dob", "Date of Birth", "15 August 2002"),
      TemplateField("gender", "Gender", "Male / Female / Other"),
      TemplateField("email", "Email", "you@example.com"),
      TemplateField("phone", "Phone", "+91-98xxxxxx00"),
      TemplateField("address", "Current Address", "House no., Street, City, State, PIN")
    ])

  /** `baseEducationSection` (src/data/templates.ts:60). */
  const BaseEducationSection: TemplateSection := TemplateSection("education", "Education", Some("Your academic qualifications."), [
      TemplateField("education1", "Highest Qualification", "B.Tech in Computer Science, XYZ University, 2024"),
      TemplateField("education2", "Previous Qualification", "12th, CBSE, 2020 – 85%"),
      TemplateField("education3", "Additional Courses / Certifications", "Full-Stack Web Development, Coursera, 2023")
    ])

  /** `baseFamilySection` (src/data/templates.ts:83). */
  const BaseFamilySection: TemplateSection := TemplateSection("family", "Family Details", Some("Family background summary."), [
      TemplateField("fatherName", "Father's Name & Occupation", "Mr. Rakesh Sharma, Govt. Employee"),
      TemplateField("motherName", "Mother's Name & Occupation", "Mrs. Sunita Sharma, Homemaker"),
      TemplateField("siblings", "Siblings", "1 younger sister, studying in Class 10"),
      TemplateField("familyLocation", "Family Location", "Originally from Jaipur, Rajasthan; settled in Delhi")
    ])

  const SoftwareEngineerClassic: BiodataTemplate := BiodataTemplate(
    "software-engineer-classic", "software-engineer-classic",
    "Software Engineer (Classic)",
    "Clean one-page biodata for software and IT roles.",
    "Software & IT", Job, "#2563eb",
    ["software", "developer", "it", "fresher"],
    [
      BasePersonalSection,
      BaseEducationSection,
      TemplateSection("experience", "Projects & Experience", Some("Show your practical work and internships."), [
          TemplateField("project1", "Key Project / Internship 1", "Full-stack task manager app using React, Node.js and MongoDB."),
          TemplateField("project2", "Key Project / Internship 2", "Android app for college attendance tracking, Kotlin + Firebase."),
          TemplateField("skills", "Technical Skills", "JavaScript, TypeScript, React, Next.js, Node.js, SQL, Git")
        ])
    ])

  const FrontendDeveloperModern: BiodataTemplate := BiodataTemplate(
    "frontend-developer-modern", "frontend-developer-modern",
    "Frontend Developer (Modern UI)",
    "Modern, visually-focused biodata for frontend and UI developers.",
    "Software & IT", Job, "#22c55e",
    ["frontend", "react", "ui", "web"],
    [
      BasePersonalSection,
      BaseEducationSection,
      TemplateSection("skills-ui", "Skills & Tools", Some("Highlight design and frontend-specific skills."), [
          TemplateField("skillsFrontend", "Frontend Skills", "HTML5, CSS3, Tailwind CSS, JavaScript, TypeScript, React, Next.js"),
          TemplateField("designTools", "Design Tools", "Figma, Adobe XD, Framer, Canva"),
          TemplateField("portfolio", "Portfolio Link", "https://your-portfolio.com")
        ])
    ])

  const DataAnalystStructured: BiodataTemplate := BiodataTemplate(
    "data-analyst-structured", "data-analyst-structured",
    "Data Analyst (Structured)",
    "Structured biodata focused on numbers and tools.",
    "Software & IT", Job, "#06b6d4",
    ["data", "analyst", "excel", "sql"],
    [
      BasePersonalSection,
      BaseEducationSection,
      TemplateSection("analytics", "Analytics Profile", Some("Showcase tools, dashboards and case studies."), [
          TemplateField("tools", "Tools & Technologies", "Excel, SQL, Power BI, Tableau, Python (Pandas)"),
          TemplateField("analyticsProject1", "Analytics Project 1", "Sales dashboard for retail chain with monthly and regional views."),
          TemplateField("analyticsProject2", "Analytics Project 2", "Customer churn prediction model using Python and scikit-learn.")
        ])
    ])

  const UiUxDesignerCreative: BiodataTemplate := BiodataTemplate(
    "ui-ux-designer-creative", "ui-ux-designer-creative",
    "UI/UX Designer (Creative)",
    "Designer-friendly biodata with focus on portfolio and case studies.",
    "Creative & Design", Job, "#ec4899",
    ["ui", "ux", "designer", "figma"],
    [
      BasePersonalSection,
      BaseEducationSection,
      TemplateSection("designProfile", "Design Profile", Some("Summarise your design philosophy and strengths."), [
          TemplateField("summary", "Short Summary", "UI/UX designer focused on simple, human-friendly digital products."),
          TemplateField("portfolioLink", "Portfolio", "Behance / Dribbble / Personal website"),
          TemplateField("caseStudy", "Hero Case Study", "Redesigned college website to improve admissions inquiries by 40%.")
        ])
    ])

  const MechanicalEngineerTechnical: BiodataTemplate := BiodataTemplate(
    "mechanical-engineer-technical", "mechanical-engineer-technical",
    "Mechanical Engineer (Technical)",
    "Technical biodata for mechanical engineering roles.",
    "Engineering", Job, "#f97316",
    ["mechanical", "engineer", "production"],
    [
      BasePersonalSection,
      BaseEducationSection,
      TemplateSection("mechSkills", "Skills & Industrial Exposure", None, [
          TemplateField("mechSkills", "Technical Skills", "AutoCAD, SolidWorks, ANSYS, CNC, Quality Control"),
          TemplateField("industrialTraining", "Industrial Training", "Summer training at ABC Auto Ltd., assembly line and quality checks."),
          TemplateField("project", "B.Tech Major Project", "Design and fabrication of solar-powered water pumping system.")
        ])
    ])

  const CivilEngineerSite: BiodataTemplate := BiodataTemplate(
    "civil-engineer-site", "civil-engineer-site",
    "Civil Engineer (Site)",
    "Site-focused biodata for civil engineering profiles.",
    "Engineering", Job, "#22c55e",
    ["civil", "engineer", "site", "construction"],
    [
      BasePersonalSection,
      BaseEducationSection,
      TemplateSection("civilExperience", "Site Experience & Projects", None, [
          TemplateField("siteProject1", "Site / Project 1", "Supervision of G+4 residential project, managing labour and billing."),
          TemplateField("siteProject2", "Site / Project 2", "Roadwork project including quantity estimation and surveying."),
          TemplateField("civilSkills", "Technical Skills", "AutoCAD, STAAD Pro, MS Project, Surveying instruments")
        ])
    ])

  const DoctorClinical: BiodataTemplate := BiodataTemplate(
    "doctor-clinical", "doctor-clinical",
    "Doctor (Clinical Biodata)",
    "Professional biodata for MBBS/MD doctors applying to hospitals.",
    "Medical & Healthcare", Job, "#0ea5e9",
    ["doctor", "mbbs", "md", "hospital"],
    [
      BasePersonalSection,
      TemplateSection("registration", "Registration & Qualifications", None, [
          TemplateField("registrationNo", "Medical Registration Number", "Registered with MCI / State Medical Council"),
          TemplateField("degrees", "Degrees", "MBBS, MD (Medicine) – College, University, Year"),
          TemplateField("fellowships", "Fellowships / Certifications", "Fellowship in Critical Care, XYZ Institute")
        ]),
      TemplateSection("clinicalExperience", "Clinical Experience", None, [
          TemplateField("experience1", "Hospital / Role 1", "Junior Resident, Department of Medicine, ABC Hospital (2022–2024)"),
          TemplateField("experience2", "Hospital / Role 2", "Emergency duty and ward rounds, ICU exposure, procedures handled.")
        ])
    ])

  const NurseCare: BiodataTemplate := BiodataTemplate(
    "nurse-care", "nurse-care",
    "Nurse (Patient Care)",
    "Caring profile for nursing and patient support roles.",
    "Medical & Healthcare", Job, "#22c55e",
    ["nurse", "gnm", "bsc nursing"],
    [
      BasePersonalSection,
      BaseEducationSection,
      TemplateSection("nursingExperience", "Nursing Experience", None, [
          TemplateField("hospital", "Hospital / Clinic Experience", "Staff Nurse at XYZ Hospital, handling ICU and ward patients."),
          TemplateField("skillsNursing", "Key Nursing Skills", "IV insertion, vital monitoring, patient counselling, records.")
        ])
    ])

  const SchoolTeacher: BiodataTemplate := BiodataTemplate(
    "school-teacher", "school-teacher",
    "School Teacher",
    "Teacher biodata for school-level teaching roles.",
    "Teaching & Education", Job, "#a855f7",
    ["teacher", "school", "b.ed"],
    [
      BasePersonalSection,
      BaseEducationSection,
      TemplateSection("teachingProfile", "Teaching Profile", None, [
          TemplateField("subjects", "Subjects / Classes", "Mathematics for classes 6–10"),
          TemplateField("experienceTeaching", "Teaching Experience", "3 years as TGT Maths at ABC Public School, CBSE curriculum."),
          TemplateField("activities", "Co-curricular Activities", "Maths club in-charge, exam paper setting, parent counselling.")
        ])
    ])

  const CollegeProfessor: BiodataTemplate := BiodataTemplate(
    "college-professor", "college-professor",
    "College Professor / Lecturer",
    "Academic biodata for lecturer / assistant professor roles.",
    "Teaching & Education", Job, "#f97316",
    ["professor", "lecturer", "academics"],
    [
      BasePersonalSection,
      BaseEducationSection,
      TemplateSection("academics", "Academic Profile", None, [
          TemplateField("specialization", "Area of Specialization", "Computer Networks, Network Security"),
          TemplateField("publications", "Publications / Conferences", "2 IEEE conference papers, 1 journal publication."),
          TemplateField("teachingExp", "Teaching Experience", "Assistant Professor at XYZ College, 4 years, B.Tech and M.Tech courses.")
        ])
    ])

  const AccountantProfile: BiodataTemplate := BiodataTemplate(
    "accountant-profile", "accountant-profile",
    "Accountant",
    "Finance biodata for accounts and finance roles.",
    "Finance & Accounting", Job, "#22c55e",
    ["accountant", "tally", "gst"],
    [
      BasePersonalSection,
      BaseEducationSection,
      TemplateSection("financeSkills", "Finance & Accounts Skills", None, [
          TemplateField("accountingTools", "Tools", "Tally, MS Excel, GST portal, Income Tax portal"),
          TemplateField("experienceFinance", "Work Experience", "2 years as Accounts Executive, handling vouchers, GST returns, TDS.")
        ])
    ])

  const BankerFinance: BiodataTemplate := BiodataTemplate(
    "banker-finance", "banker-finance",
    "Banking / Finance Professional",
    "Professional biodata for banking and finance roles.",
    "Finance & Accounting", Job, "#0ea5e9",
    ["bank", "finance", "nbfc"],
    [
      BasePersonalSection,
      BaseEducationSection,
      TemplateSection("bankingProfile", "Banking Profile", None, [
          TemplateField("experienceBank", "Bank / Branch Experience", "Customer Service Officer at XYZ Bank, handling accounts and KYC."),
          TemplateField("certificationsBank", "Certifications", "NISM, NCFM, JAIIB (if applicable)")
        ])
    ])

  const SalesExecutive: BiodataTemplate := BiodataTemplate(
    "sales-executive", "sales-executive",
    "Sales Executive",
    "Target-driven biodata for sales profiles.",
    "Sales & Marketing", Job, "#ef4444",
    ["sales", "field", "b2b", "b2c"],
    [
      BasePersonalSection,
      BaseEducationSection,
      TemplateSection("salesProfile", "Sales Profile", None, [
          TemplateField("experienceSales", "Sales Experience", "3 years in B2B software sales, North India region."),
          TemplateField("achievementsSales", "Key Achievements", "Achieved 120% of targets for 4 consecutive quarters.")
        ])
    ])

  const DigitalMarketer: BiodataTemplate := BiodataTemplate(
    "digital-marketer", "digital-marketer",
    "Digital Marketer",
    "Online marketing biodata for social and performance roles.",
    "Sales & Marketing", Job, "#f97316",
    ["digital", "seo", "social media"],
    [
      BasePersonalSection,
      BaseEducationSection,
      TemplateSection("marketingSkills", "Digital Marketing Profile", None, [
          TemplateField("channels", "Channels", "SEO, SEM, Facebook Ads, Instagram, Email Marketing"),
          TemplateField("campaigns", "Key Campaigns", "Lead generation campaign for ed-tech course with 25% lower CPL.")
        ])
    ])

  const FresherGeneral: BiodataTemplate := BiodataTemplate(
    "fresher-general", "fresher-general",
    "Fresher (Any Field)",
    "Simple biodata for fresh graduates in any stream.",
    "Student / Fresher", Job, "#22c55e",
    ["fresher", "graduate", "first job"],
    [
      BasePersonalSection,
      BaseEducationSection,
      TemplateSection("strengths", "Strengths & Activities", None, [
          TemplateField("careerObjective", "Career Objective", "To start my career in a growth-oriented organisation where I can learn and contribute."),
          TemplateField("strengths", "Strengths", "Quick learner, good communication skills, team player."),
          TemplateField("activitiesFresher", "College Activities", "Member of cultural committee, organised annual fest.")
        ])
    ])

  const InternshipStudent: BiodataTemplate := BiodataTemplate(
    "internship-student", "internship-student",
    "Student Internship",
    "Compact biodata for internship applications.",
    "Student / Fresher", Education, "#0ea5e9",
    ["student", "internship"],
    [
      BasePersonalSection,
      BaseEducationSection,
      TemplateSection("internshipGoals", "Internship Goals", None, [
          TemplateField("objectiveIntern", "Objective", "To gain practical exposure in software development while pursuing my degree."),
          TemplateField("skillsIntern", "Skills", "C, C++, Java, basic HTML/CSS, problem solving.")
        ])
    ])

  const GovernmentJob: BiodataTemplate := BiodataTemplate(
    "government-job", "government-job",
    "Government / PSU Job",
    "Formal biodata format for government and PSU roles.",
    "Government / PSU", Job, "#1d4ed8",
    ["govt", "psu", "formal"],
    [
      BasePersonalSection,
      BaseEducationSection,
      TemplateSection("govtDetails", "Government Exam Details", None, [
          TemplateField("examCleared", "Exams Cleared", "RRB NTPC 2023, SSC CGL 2022 (Tier 1)"),
          TemplateField("category", "Category / Caste", "General / OBC / SC / ST / EWS")
        ])
    ])

  const ElectricianTechnician: BiodataTemplate := BiodataTemplate(
    "electrician-technician", "electrician-technician",
    "Electrician / Technician",
    "Skill-based biodata for technical and trade roles.",
    "Trades & Technical", Job, "#facc15",
    ["electrician", "technician", "iti"],
    [
      BasePersonalSection,
      TemplateSection("tradeEducation", "Trade Education", None, [
          TemplateField("tradeCourse", "Trade Course", "ITI Electrician, XYZ ITI, 2 years"),
          TemplateField("experienceTrade", "Experience", "3 years experience in residential and commercial wiring.")
        ])
    ])

  const PlumberTechnician: BiodataTemplate := BiodataTemplate(
    "plumber-technician", "plumber-technician",
    "Plumber / Maintenance",
    "Simple biodata for plumbing and maintenance roles.",
    "Trades & Technical", Job, "#22c55e",
    ["plumber", "maintenance"],
    [
      BasePersonalSection,
      TemplateSection("plumberExperience", "Work Experience", None, [
          TemplateField("experiencePlumber", "Experience", "5 years experience in residential plumbing and maintenance.")
        ])
    ])

  const WeddingGroomTraditional: BiodataTemplate := BiodataTemplate(
    "wedding-groom-traditional", "wedding-groom-traditional",
    "Wedding Biodata (Groom)",
    "Traditional Indian wedding biodata format for grooms, with family and preferences.",
    "Wedding", Wedding, "#e11d48",
    ["wedding", "groom", "marriage"],
    [
      BasePersonalSection,
      BaseEducationSection,
      BaseFamilySection,
      TemplateSection("weddingDetailsGroom", "Wedding & Personal Preferences", None, [
          TemplateField("height", "Height", "5'9\" (175 cm)"),
          TemplateField("religionCaste", "Religion / Caste", "Hindu, Brahmin"),
          TemplateField("occupation", "Current Occupation", "Software Engineer at MNC in Bangalore"),
          TemplateField("partnerPreference", "Partner Preferences", "Educated, working, understanding partner from similar cultural background.")
        ])
    ])

  const WeddingBrideTraditional: BiodataTemplate := BiodataTemplate(
    "wedding-bride-traditional", "wedding-bride-traditional",
    "Wedding Biodata (Bride)",
    "Traditional wedding biodata format for brides with education and family details.",
    "Wedding", Wedding, "#db2777",
    ["wedding", "bride", "marriage"],
    [
      BasePersonalSection,
      BaseEducationSection,
      BaseFamilySection,
      TemplateSection("weddingDetailsBride", "Wedding & Lifestyle Details", None, [
          TemplateField("heightBride", "Height", "5'4\" (162 cm)"),
          TemplateField("religionCasteBride", "Religion / Caste", "Hindu, Khatri"),
          TemplateField("occupationBride", "Current Occupation", "Senior Analyst at consulting firm in Gurgaon"),
          TemplateField("hobbiesBride", "Hobbies", "Reading, music, travelling, cooking.")
        ])
    ])

  const WeddingNri: BiodataTemplate := BiodataTemplate(
    "wedding-nri", "wedding-nri",
    "Wedding Biodata (NRI)",
    "Modern biodata for NRI brides/grooms with abroad details.",
    "Wedding", Wedding, "#0284c7",
    ["wedding", "nri", "abroad"],
    [
      BasePersonalSection,
      BaseEducationSection,
      BaseFamilySection,
      TemplateSection("nriDetails", "NRI Details", None, [
          TemplateField("country", "Country of Residence", "Canada / USA / UK / Australia"),
          TemplateField("visaStatus", "Visa / PR Status", "Permanent Resident / Work Permit / Citizen"),
          TemplateField("jobAbroad", "Job Details Abroad", "Working as Software Engineer in Toronto with XYZ Corp.")
        ])
    ])

  const WeddingSimpleModern: BiodataTemplate := BiodataTemplate(
    "wedding-simple-modern", "wedding-simple-modern",
    "Wedding Biodata (Simple Modern)",
    "Minimal, modern wedding biodata focused on education and values.",
    "Wedding", Wedding, "#22c55e",
    ["wedding", "simple", "modern"],
    [
      BasePersonalSection,
      BaseEducationSection,
      TemplateSection("values", "Values & Lifestyle", None, [
          TemplateField("languages", "Languages Known", "English, Hindi, regional language"),
          TemplateField("values", "Values", "Respect for family, honesty, growth mindset.")
        ])
    ])

  const RentalTenantProfile: BiodataTemplate := BiodataTemplate(
    "rental-tenant-profile", "rental-tenant-profile",
    "Rental / PG Tenant Profile",
    "Biodata-style profile for renting a flat, PG or hostel.",
    "Other", Personal, "#0ea5e9",
    ["rental", "tenant", "flat"],
    [
      BasePersonalSection,
      TemplateSection("rentalDetails", "Rental Details", None, [
          TemplateField("employment", "Employment / Study Details", "Working at XYZ Company / Studying at ABC College"),
          TemplateField("stayDuration", "Expected Duration of Stay", "12 months / 2 years"),
          TemplateField("references", "References", "Previous landlord / office HR contact (optional)")
        ])
    ])

  const NgoVolunteerProfile: BiodataTemplate := BiodataTemplate(
    "ngo-volunteer-profile", "ngo-volunteer-profile",
    "NGO / Volunteer Profile",
    "Simple profile for volunteering and NGO work.",
    "Other", Personal, "#22c55e",
    ["ngo", "volunteer", "social work"],
    [
      BasePersonalSection,
      TemplateSection("volunteerDetails", "Volunteer Experience", None, [
          TemplateField("ngoWork", "NGO / Initiative", "Volunteered with XYZ NGO for teaching underprivileged children."),
          TemplateField("availability", "Availability", "Weekends / Evenings / Full-time (summer)")
        ])
    ])

  /** `templates`, in catalog order (written as five runs of five entries). */
  const All: seq<BiodataTemplate> :=
    [SoftwareEngineerClassic, FrontendDeveloperModern, DataAnalystStructured, UiUxDesignerCreative, MechanicalEngineerTechnical] +
    [CivilEngineerSite, DoctorClinical, NurseCare, SchoolTeacher, CollegeProfessor] +
    [AccountantProfile, BankerFinance, SalesExecutive, DigitalMarketer, FresherGeneral] +
    [InternshipStudent, GovernmentJob, ElectricianTechnician, PlumberTechnician, WeddingGroomTraditional] +
    [WeddingBrideTraditional, WeddingNri, WeddingSimpleModern, RentalTenantProfile, NgoVolunteerProfile]

  // ---------------------------------------------------------------------------
  // the derived views
  // ---------------------------------------------------------------------------

  /** `getTemplateBySlug`. */
  function GetTemplateBySlug(slug: string): (r: Option<BiodataTemplate>)
    ensures r.Some? ==> r.value in All && r.value.slug == slug
    ensures r.None? <==> forall i :: 0 <= i < |All| ==> All[i].slug != slug
  {
    FindBySlug(All, slug)
  }

  /** `allCategories`. */
  function AllCategories(): (r: seq<string>)
    ensures forall c :: c in r <==> exists i :: 0 <= i < |All| && All[i].category == c
    ensures StrictlyAscending(r)
  {
    SortedCategories(All)
  }

  /** Every listed category is a value of the category union. */
  lemma CategoriesAreKnown(c: string)
    requires c in AllCategories()
    ensures c in TemplateCategories
  {
    var i :| 0 <= i < |All| && All[i].category == c;
    AllWellFormed(i);
  }

  // ---------------------------------------------------------------------------
  // structural facts
  // ---------------------------------------------------------------------------

  /** The position of a slug in the catalog, or -1 for any other string. */
  function SlugIndex(slug: string): int {
    match slug
    case "software-engineer-classic" => 0
    case "frontend-developer-modern" => 1
    case "data-analyst-structured" => 2
    case "ui-ux-designer-creative" => 3
    case "mechanical-engineer-technical" => 4
    case "civil-engineer-site" => 5
    case "doctor-clinical" => 6
    case "nurse-care" => 7
    case "school-teacher" => 8
    case "college-professor" => 9
    case "accountant-profile" => 10
    case "banker-finance" => 11
    case "sales-executive" => 12
    case "digital-marketer" => 13
    case "fresher-general" => 14
    case "internship-student" => 15
    case "government-job" => 16
    case "electrician-technician" => 17
    case "plumber-technician" => 18
    case "wedding-groom-traditional" => 19
    case "wedding-bride-traditional" => 20
    case "wedding-nri" => 21
    case "wedding-simple-modern" => 22
    case "rental-tenant-profile" => 23
    case "ngo-volunteer-profile" => 24
    case _ => -1
  }

  /** Each template's slug leads back to its own position. */
  lemma SlugIndexInverse(i: nat)
    requires i < |All|
    ensures SlugIndex(All[i].slug) == i
  {
    Listed(i);
  }

  /** No two catalog templates share a slug. */
  lemma SlugsAreDistinct()
    ensures SlugsDistinct(All)
  {
    forall i, j | 0 <= i < j < |All| ensures All[i].slug != All[j].slug {
      SlugIndexInverse(i);
      SlugIndexInverse(j);
    }
  }

  /** Looking a catalog template up by its own slug finds that template. */
  lemma LookupOwnSlug(i: nat)
    requires i < |All|
    ensures GetTemplateBySlug(All[i].slug) == Some(All[i])
  {
    SlugsAreDistinct();
    FindOwnSlug(All, i);
  }

  /** A slug that belongs to no template is not found. */
  lemma UnknownSlug(slug: string)
    requires SlugIndex(slug) == -1
    ensures GetTemplateBySlug(slug) == None
  {
    forall i | 0 <= i < |All| ensures All[i].slug != slug {
      SlugIndexInverse(i);
    }
  }

  /** A catalog entry's id is its slug, its category is one of the union's values and
      it has at least one section. */
  predicate WellFormed(t: BiodataTemplate) {
    t.id == t.slug && t.category in TemplateCategories && |t.sections| >= 1
  }

  /** Every catalog template is well formed. */
  lemma AllWellFormed(i: nat)
    requires i < |All|
    ensures All[i].id == All[i].slug
    ensures All[i].category in TemplateCategories
    ensures |All[i].sections| >= 1
  {
    Listed(i);
  }

  /** The entry at position `i` of the catalog is well formed and its slug maps back to `i`. */
  predicate Catalogued(t: BiodataTemplate, i: int) {
    SlugIndex(t.slug) == i && WellFormed(t)
  }

  lemma Listed(i: nat)
    requires i < |All|
    ensures Catalogued(All[i], i)
  {
    if i < 5 { Listed0(i); }
    else if i < 10 { Listed1(i); }
    else if i < 15 { Listed2(i); }
    else if i < 20 { Listed3(i); }
    else { Listed4(i); }
  }

  lemma Listed0(i: nat)
    requires 0 <= i < 5
    ensures Catalogued(All[i], i)
  {
    match i
    case 0 => SoftwareEngineerClassicListed(); assert All[0] == SoftwareEngineerClassic;
    case 1 => FrontendDeveloperModernListed(); assert All[1] == FrontendDeveloperModern;
    case 2 => DataAnalystStructuredListed(); assert All[2] == DataAnalystStructured;
    case 3 => UiUxDesignerCreativeListed(); assert All[3] == UiUxDesignerCreative;
    case _ => MechanicalEngineerTechnicalListed(); assert All[4] == MechanicalEngineerTechnical;
  }

  lemma Listed1(i: nat)
    requires 5 <= i < 10
    ensures Catalogued(All[i], i)
  {
    match i
    case 5 => CivilEngineerSiteListed(); assert All[5] == CivilEngineerSite;
    case 6 => DoctorClinicalListed(); assert All[6] == DoctorClinical;
    case 7 => NurseCareListed(); assert All[7] == NurseCare;
    case 8 => SchoolTeacherListed(); assert All[8] == SchoolTeacher;
    case _ => CollegeProfessorListed(); assert All[9] == CollegeProfessor;
  }

  lemma Listed2(i: nat)
    requires 10 <= i < 15
    ensures Catalogued(All[i], i)
  {
    match i
    case 10 => AccountantProfileListed(); assert All[10] == AccountantProfile;
    case 11 => BankerFinanceListed(); assert All[11] == BankerFinance;
    case 12 => SalesExecutiveListed(); assert All[12] == SalesExecutive;
    case 13 => DigitalMarketerListed(); assert All[13] == DigitalMarketer;
    case _ => FresherGeneralListed(); assert All[14] == FresherGeneral;
  }

  lemma Listed3(i: nat)
    requires 15 <= i < 20
    ensures Catalogued(All[i], i)
  {
    match i
    case 15 => InternshipStudentListed(); assert All[15] == InternshipStudent;
    case 16 => GovernmentJobListed(); assert All[16] == GovernmentJob;
    case 17 => ElectricianTechnicianListed(); assert All[17] == ElectricianTechnician;
    case 18 => PlumberTechnicianListed(); assert All[18] == PlumberTechnician;
    case _ => WeddingGroomTraditionalListed(); assert All[19] == WeddingGroomTraditional;
  }

  lemma Listed4(i: nat)
    requires 20 <= i < 25
    ensures Catalogued(All[i], i)
  {
    match i
    case 20 => WeddingBrideTraditionalListed(); assert All[20] == WeddingBrideTraditional;
    case 21 => WeddingNriListed(); assert All[21] == WeddingNri;
    case 22 => WeddingSimpleModernListed(); assert All[22] == WeddingSimpleModern;
    case 23 => RentalTenantProfileListed(); assert All[23] == RentalTenantProfile;
    case _ => NgoVolunteerProfileListed(); assert All[24] == NgoVolunteerProfile;
  }

  lemma SoftwareEngineerClassicListed()
    ensures Catalogued(SoftwareEngineerClassic, 0)
  {
  }

  lemma FrontendDeveloperModernListed()
    ensures Catalogued(FrontendDeveloperModern, 1)
  {
  }

  lemma DataAnalystStructuredListed()
    ensures Catalogued(DataAnalystStructured, 2)
  {
  }

  lemma UiUxDesignerCreativeListed()
    ensures Catalogued(UiUxDesignerCreative, 3)
  {
  }

  lemma MechanicalEngineerTechnicalListed()
    ensures Catalogued(MechanicalEngineerTechnical, 4)
  {
  }

  lemma CivilEngineerSiteListed()
    ensures Catalogued(CivilEngineerSite, 5)
  {
  }

  lemma DoctorClinicalListed()
    ensures Catalogued(DoctorClinical, 6)
  {
  }

  lemma NurseCareListed()
    ensures Catalogued(NurseCare, 7)
  {
  }

  lemma SchoolTeacherListed()
    ensures Catalogued(SchoolTeacher, 8)
  {
  }

  lemma CollegeProfessorListed()
    ensures Catalogued(CollegeProfessor, 9)
  {
  }

  lemma AccountantProfileListed()
    ensures Catalogued(AccountantProfile, 10)
  {
  }

  lemma BankerFinanceListed()
    ensures Catalogued(BankerFinance, 11)
  {
  }

  lemma SalesExecutiveListed()
    ensures Catalogued(SalesExecutive, 12)
  {
  }

  lemma DigitalMarketerListed()
    ensures Catalogued(DigitalMarketer, 13)
  {
  }

  lemma FresherGeneralListed()
    ensures Catalogued(FresherGeneral, 14)
  {
  }

  lemma InternshipStudentListed()
    ensures Catalogued(InternshipStudent, 15)
  {
  }

  lemma GovernmentJobListed()
    ensures Catalogued(GovernmentJob, 16)
  {
  }

  lemma ElectricianTechnicianListed()
    ensures Catalogued(ElectricianTechnician, 17)
  {
  }

  lemma PlumberTechnicianListed()
    ensures Catalogued(PlumberTechnician, 18)
  {
  }

  lemma WeddingGroomTraditionalListed()
    ensures Catalogued(WeddingGroomTraditional, 19)
  {
  }

  lemma WeddingBrideTraditionalListed()
    ensures Catalogued(WeddingBrideTraditional, 20)
  {
  }

  lemma WeddingNriListed()
    ensures Catalogued(WeddingNri, 21)
  {
  }

  lemma WeddingSimpleModernListed()
    ensures Catalogued(WeddingSimpleModern, 22)
  {
  }

  lemma RentalTenantProfileListed()
    ensures Catalogued(RentalTenantProfile, 23)
  {
  }

  lemma NgoVolunteerProfileListed()
    ensures Catalogued(NgoVolunteerProfile, 24)
  {
  }
}
