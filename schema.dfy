/** The structured record the LLM is asked to produce (pydantic models of the scraper service). */
module Schema {

  /** One course entry (DeeplearningCourse). */
  datatype Course = Course(
    title: string,
    description: string,
    presenter: seq<string>,
    imageUrl: string,
    courseURL: string)

  /** The list of extracted courses (DeeplearningCourseList), in the order the LLM returned them. */
  datatype CourseList = CourseList(courses: seq<Course>)

  /** `DeeplearningCourseList(courses=[])`, the fallback result. */
  const NoCourses := CourseList([])
}
